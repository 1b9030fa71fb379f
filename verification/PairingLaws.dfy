// What a report, a sighting and a whole run come to, in terms of the five flags,
// the two lists and the notices themselves (bluetooth.c).
module PairingLaws {
  import opened Options
  import opened Lists
  import opened Pairing

  // --------------------------------------------------------- one report

  // The flags after a report: a paired transport keeps its pairing through an
  // incoming pairing request and through a failed pairing.
  lemma UpdatedFlags(f: Flags, p: Report)
    requires f.bredrBonded ==> f.bredrPaired
    requires f.leBonded ==> f.lePaired
    ensures Updated(f, BrEdr, p) ==
      if f.bredrPaired && (p.pairing || (!p.paired && f.pairing)) then f.(pairing := p.pairing)
      else Flags(p.pairing, p.paired, p.paired && (f.bredrBonded || p.bonded), f.lePaired, f.leBonded)
    ensures Updated(f, Le, p) ==
      if f.lePaired && (p.pairing || (!p.paired && f.pairing)) then f.(pairing := p.pairing)
      else Flags(p.pairing, f.bredrPaired, f.bredrBonded, p.paired, p.paired && (f.leBonded || p.bonded))
  {}

  // The lists after it: a newly paired device leads the bonded ones; one that is
  // not paired, or not any more, is cached once more, unless the report is no news.
  lemma UpdatedLists(r: Roster, a: Address, t: Transport, p: Report)
    requires Coherent(r) && a in r.flags
    ensures var w, f := UpdateState(r, a, t, p), r.flags[a];
      && a in w.flags && w.flags[a] == Updated(f, t, p)
      && if !w.flags[a].bredrPaired && !w.flags[a].lePaired then
           && w.bonded == Without(r.bonded, a)
           && w.cached == (if a in r.cached && p == Report(f.pairing, false, false) then r.cached
                           else Remember(r.cached, a))
         else if a in r.bonded then w.bonded == r.bonded && w.cached == r.cached
         else w.bonded == [a] + r.bonded && w.cached == Without(r.cached, a)
  {
    UpdateStateKeeps(r, a, t, p);
    if a !in r.bonded { WithoutAbsent(r.bonded, a); }
    hide Remember, Without, Distinct;
  }

  // What Android is told: nothing while its state stays, otherwise the new state
  // with the status of the report, and bonding first unless it is one of the two.
  lemma ReportTold(r: Roster, a: Address, t: Transport, status: nat, p: Report)
    requires Coherent(r) && a in r.flags
    ensures var w := Step(r, Reported(a, t, status, p));
      var was := if r.flags[a].pairing then Bonding else if a in r.bonded then Bonded else Unbonded;
      && a in w.flags
      && var now := if w.flags[a].pairing then Bonding else if a in w.bonded then Bonded else Unbonded;
         w.sent == r.sent +
           if was == now then []
           else if was != Bonding && now != Bonding then [Notice(a, 0, Bonding), Notice(a, status, now)]
           else [Notice(a, status, now)]
  {
    StepKeeps(r, Reported(a, t, status, p));
    UpdateStateKeeps(r, a, t, p);
    hide UpdateState, Updated;
  }

  // --------------------------------------------------------- one sighting

  // An unknown address becomes an unpaired device in front of the cache; a known
  // one stays where it is when looked up, and moves to the front when it is
  // sighted and not paired.
  lemma LookedUpAndSighted(r: Roster, a: Address)
    requires Coherent(r)
    ensures Step(r, Look(a)) == (if a in r.flags then r else Step(r, Sighting(a)))
    ensures var w := Step(r, Sighting(a));
      && a in w.flags && w.bonded == r.bonded && w.sent == r.sent
      && w.flags[a] == (if a in r.flags then r.flags[a] else Flags(false, false, false, false, false))
      && w.cached == if a in r.bonded then r.cached else Remember(r.cached, a)
  {
    if a !in r.flags { RememberedTwice(r.cached, a); }
    StepKeeps(r, Look(a));
    if a !in r.flags { CacheSame(r, a); }
    hide Remember, Victim;
  }

  lemma RememberedTwice<T>(cached: seq<T>, x: T)
    requires Distinct(cached)
    ensures Remember(Remember(cached, x), x) == Remember(cached, x)
    ensures Victim(Remember(cached, x), x) == None
  {
    RememberKeeps(cached, x);
    var next := Remember(cached, x);
    assert Without(next, x) == next[1..];
    hide Without;
  }

  lemma CacheSame(r: Roster, a: Address)
    requires Coherent(r) && a !in r.flags
    ensures Cache(Cache(r, a, FRESH), a, FRESH) == Cache(r, a, FRESH)
  {
    RememberedTwice(r.cached, a);
    hide Remember, Victim;
  }

  // --------------------------------------------------------- a whole run

  // The k-th notice is the last one for this address.
  ghost predicate LastFor(sent: seq<Notice>, a: Address, k: nat) {
    k < |sent| && sent[k].address == a && forall j :: k < j < |sent| ==> sent[j].address != a
  }

  lemma {:induction false} LastHeard(start: Bond, sent: seq<Notice>, a: Address, k: nat)
    requires LastFor(sent, a, k)
    ensures Last(Heard(start, sent, a)) == sent[k].state
  {
    if k < |sent| - 1 { LastHeard(start, sent[..|sent| - 1], a, k); }
  }

  lemma {:induction false} NothingHeard(start: Bond, sent: seq<Notice>, a: Address)
    requires forall k :: 0 <= k < |sent| ==> sent[k].address != a
    ensures Last(Heard(start, sent, a)) == start
  {
    if sent != [] { NothingHeard(start, sent[..|sent| - 1], a); }
  }

  // Over every run the last notice for a device says what the daemon holds: bonding
  // while it is pairing, bonded when it is in the bonded list, and neither for a
  // known device that is not or an unknown one. Without a notice that has not
  // changed since the start.
  lemma AndroidKnows(r: Roster, events: seq<Event>, a: Address)
    requires Coherent(r) && r.sent == [] && NeverCutOff(r, events, a)
    ensures var w := Run(r, events);
      var was := if a in r.flags && r.flags[a].pairing then Bonding else if a in r.bonded then Bonded else Unbonded;
      var now := if a in w.flags && w.flags[a].pairing then Bonding else if a in w.bonded then Bonded else Unbonded;
      && (forall k: nat :: LastFor(w.sent, a, k) ==> w.sent[k].state == now)
      && ((forall k :: 0 <= k < |w.sent| ==> w.sent[k].address != a) ==> now == was)
      && (a in w.bonded <==> a in w.flags && (w.flags[a].bredrPaired || w.flags[a].lePaired))
  {
    RunHeard(r, events, a);
    RunKeeps(r, events);
    var sent := Run(r, events).sent;
    forall k: nat | LastFor(sent, a, k) ensures sent[k].state == Last(Heard(StateOf(r, a), sent, a)) {
      LastHeard(StateOf(r, a), sent, a, k);
    }
    if forall k :: 0 <= k < |sent| ==> sent[k].address != a { NothingHeard(StateOf(r, a), sent, a); }
    hide Run, Heard, LegalWalk;
  }

  // The cache holds the 300 most recently cached devices, in order.
  lemma ThreeHundredNewest<T>(history: seq<T>)
    ensures var all := Recent(history); RememberAll(history) == if |all| <= 300 then all else all[..300]
  {
    CacheHoldsTheNewest(history);
  }

  // Recent lists every address once, the later cached one first.
  lemma {:induction false} RecentOrder<T>(history: seq<T>)
    ensures Distinct(Recent(history))
    ensures forall x :: x in Recent(history) <==> x in history
    ensures history != [] ==>
      && Recent(history) != [] && Recent(history)[0] == history[|history| - 1]
      && Recent(history)[1..] == Without(Recent(history[..|history| - 1]), history[|history| - 1])
  {
    RecentDistinct(history);
    if history != [] {
      var front, x := history[..|history| - 1], history[|history| - 1];
      RecentOrder(front);
      WithoutDistinct(Recent(front), x);
      assert history == front + [x];
    }
  }
}
