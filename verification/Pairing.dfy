// Pairing state of the known devices, on values: five flags per device, the
// bonded list and the bounded move-to-front cache, and the bond states sent to
// Android (bluetooth.c).
module Pairing {
  import opened Options
  import opened Lists

  // Six bytes of Bluetooth address.
  type Address = a: nat | a < 0x1_0000_0000_0000

  const CACHE_MAX: nat := 300

  datatype Transport = BrEdr | Le

  datatype Flags = Flags(pairing: bool, bredrPaired: bool, bredrBonded: bool, lePaired: bool, leBonded: bool) {
    predicate Paired() { bredrPaired || lePaired }
    predicate PairedOn(t: Transport) { if t.BrEdr? then bredrPaired else lePaired }
    predicate BondedOn(t: Transport) { if t.BrEdr? then bredrBonded else leBonded }
    predicate Sane() { (bredrBonded ==> bredrPaired) && (leBonded ==> lePaired) }
    function With(t: Transport, paired: bool, bonded: bool): Flags {
      if t.BrEdr? then this.(bredrPaired := paired, bredrBonded := bonded)
      else this.(lePaired := paired, leBonded := bonded)
    }
  }

  const FRESH: Flags := Flags(false, false, false, false, false)

  // What a controller event reports about a device.
  datatype Report = Report(pairing: bool, paired: bool, bonded: bool)

  datatype Bond = Unbonded | Bonding | Bonded

  datatype Notice = Notice(address: Address, status: nat, state: Bond)

  function BondState(f: Flags): Bond {
    if f.pairing then Bonding else if f.Paired() then Bonded else Unbonded
  }

  // cache_device: to the front; a full cache first gives up its last entry.
  function Remember<T(==)>(cached: seq<T>, x: T): seq<T> {
    if x in cached then [x] + Without(cached, x)
    else if |cached| < CACHE_MAX then [x] + cached
    else [x] + Without(cached, cached[|cached| - 1])
  }

  function Victim<T(==)>(cached: seq<T>, x: T): (v: Option<T>) {
    if x in cached || |cached| < CACHE_MAX then None else Some(cached[|cached| - 1])
  }

  lemma RememberKeeps<T>(cached: seq<T>, x: T)
    requires Distinct(cached)
    ensures Distinct(Remember(cached, x)) && Remember(cached, x)[0] == x
    ensures |Remember(cached, x)| <= if |cached| <= CACHE_MAX then CACHE_MAX else |cached|
    ensures forall y :: y in Remember(cached, x) <==> (y == x || (y in cached && Victim(cached, x) != Some(y)))
    ensures forall y :: Victim(cached, x) == Some(y) ==>
      |cached| >= CACHE_MAX && y == cached[|cached| - 1] && y in cached && y != x
  {
    hide Distinct, Without;
    if x in cached {
      WithoutDistinct(cached, x);
      DistinctFront(Without(cached, x), x);
    } else if |cached| < CACHE_MAX {
      DistinctFront(cached, x);
    } else {
      LastOut(cached);
      DistinctFront(Without(cached, cached[|cached| - 1]), x);
    }
  }

  // Every address ever cached, each once, the most recently cached first.
  function Recent<T(==)>(history: seq<T>): seq<T> {
    if history == [] then []
    else
      var last := history[|history| - 1];
      [last] + Without(Recent(history[..|history| - 1]), last)
  }

  function RememberAll<T(==)>(history: seq<T>): seq<T> {
    if history == [] then []
    else Remember(RememberAll(history[..|history| - 1]), history[|history| - 1])
  }

  function Newest<T>(s: seq<T>): seq<T> { if |s| <= CACHE_MAX then s else s[..CACHE_MAX] }

  lemma {:induction false} WithoutPrefix<T>(s: seq<T>, x: T, k: nat)
    requires k <= |s|
    ensures x in s[..k] ==> |Without(s, x)| >= k - 1 && Without(s, x)[..k - 1] == Without(s[..k], x)
    ensures x !in s[..k] ==> |Without(s, x)| >= k - 1 && (k > 0 ==> Without(s, x)[..k - 1] == s[..k - 1])
  {
    if k > 0 && s[0] != x {
      WithoutPrefix(s[1..], x, k - 1);
      assert s[..k][1..] == s[1..][..k - 1];
      if x !in s[..k] {
        assert x !in s[1..][..k - 1];
        if k > 1 { assert s[..k - 1] == [s[0]] + s[1..][..k - 2]; }
      } else {
        assert x in s[1..][..k - 1];
      }
    } else if k > 0 {
      assert s[..k][1..] == s[1..][..k - 1];
    }
  }

  lemma {:induction false} RecentDistinct<T>(history: seq<T>)
    ensures Distinct(Recent(history))
  {
    if history != [] {
      RecentDistinct(history[..|history| - 1]);
      WithoutDistinct(Recent(history[..|history| - 1]), history[|history| - 1]);
    }
  }

  lemma RememberNewest<T>(all: seq<T>, x: T)
    requires Distinct(all)
    ensures Remember(Newest(all), x) == Newest([x] + Without(all, x))
  {
    hide Distinct, Without;
    WithoutContents(all, x);
    if |all| > CACHE_MAX {
      RememberFull(all, x);
    } else if x !in all {
      WithoutAbsent(all, x);
      if |all| == CACHE_MAX {
        WithoutLast(all);
        assert ([x] + all)[..CACHE_MAX] == [x] + all[..CACHE_MAX - 1];
      }
    }
  }

  lemma RememberFull<T>(all: seq<T>, x: T)
    requires Distinct(all) && |all| > CACHE_MAX
    ensures |Without(all, x)| >= CACHE_MAX
    ensures Remember(all[..CACHE_MAX], x) == ([x] + Without(all, x))[..CACHE_MAX]
  {
    hide Without;
    WithoutContents(all, x);
    WithoutPrefix(all, x, CACHE_MAX);
    WithoutLast(all[..CACHE_MAX]);
    var rest := Without(all, x);
    assert ([x] + rest)[..CACHE_MAX] == [x] + rest[..CACHE_MAX - 1];
    assert all[..CACHE_MAX][..CACHE_MAX - 1] == all[..CACHE_MAX - 1];
  }

  // The cache is a least-recently-used cache: it always holds exactly the
  // CACHE_MAX most recently cached devices, in order.
  lemma {:induction false} CacheHoldsTheNewest<T>(history: seq<T>)
    ensures RememberAll(history) == Newest(Recent(history))
  {
    if history != [] {
      var before, x := history[..|history| - 1], history[|history| - 1];
      CacheHoldsTheNewest(before);
      RecentDistinct(before);
      RememberNewest(Recent(before), x);
    }
  }

  // ------------------------------------------------------------- the roster

  datatype Roster = Roster(bonded: seq<Address>, cached: seq<Address>, flags: map<Address, Flags>, sent: seq<Notice>)

  // What every run keeps: the two lists partition the known devices, a device
  // is listed as bonded exactly when it is paired, and bonded implies paired.
  ghost predicate Coherent(r: Roster) {
    && Distinct(r.bonded)
    && Distinct(r.cached)
    && (forall a :: a in r.flags <==> (a in r.bonded || a in r.cached))
    && (forall a :: a in r.flags ==> (a in r.bonded <==> r.flags[a].Paired()))
    && (forall a :: a in r.flags ==> (a in r.cached <==> !r.flags[a].Paired()))
    && (forall a :: a in r.flags ==> r.flags[a].Sane())
  }

  function Dropped(flags: map<Address, Flags>, victim: Option<Address>): map<Address, Flags> {
    if victim.Some? then flags - {victim.value} else flags
  }

  // A device in neither list, or in the cache, goes to the front of the cache.
  function Cache(r: Roster, a: Address, f: Flags): Roster {
    r.(cached := Remember(r.cached, a), flags := Dropped(r.flags, Victim(r.cached, a))[a := f])
  }

  // get_device: an unknown address becomes a fresh cached device.
  function Get(r: Roster, a: Address): Roster {
    if a in r.flags then r else Cache(r, a, FRESH)
  }

  // update_found_device: unpaired devices move to the front of the cache.
  function Sighted(r: Roster, a: Address): Roster {
    var known := Get(r, a);
    if a in known.flags && !known.flags[a].Paired() then Cache(known, a, known.flags[a]) else known
  }

  // The two guards: neither an incoming pairing request nor a failed pairing
  // takes the pairing of this transport away.
  predicate Shielded(f: Flags, t: Transport, p: Report) {
    f.PairedOn(t) && (p.pairing || (!p.paired && f.pairing))
  }

  predicate NothingNew(f: Flags, t: Transport, p: Report) {
    p.pairing == f.pairing && p.paired == f.PairedOn(t) && p.bonded == f.BondedOn(t)
  }

  function Updated(f: Flags, t: Transport, p: Report): Flags {
    if NothingNew(f, t, p) then f
    else if Shielded(f, t, p) then f.(pairing := p.pairing)
    else f.With(t, p.paired, p.paired && (f.BondedOn(t) || p.bonded)).(pairing := p.pairing)
  }

  function Other(t: Transport): Transport { if t.BrEdr? then Le else BrEdr }

  // The device changes lists, or is cached once more.
  predicate Moves(f: Flags, t: Transport, p: Report) {
    !NothingNew(f, t, p) && !Shielded(f, t, p) && !f.PairedOn(Other(t)) && !(p.paired && f.PairedOn(t))
  }

  // update_bredr_state and update_le_state.
  function UpdateState(r: Roster, a: Address, t: Transport, p: Report): Roster
    requires a in r.flags
  {
    var f := r.flags[a];
    var g := Updated(f, t, p);
    if !Moves(f, t, p) then
      r.(flags := r.flags[a := g])
    else if p.paired then
      r.(bonded := [a] + r.bonded, cached := Without(r.cached, a), flags := r.flags[a := g])
    else
      Cache(r.(bonded := Without(r.bonded, a)), a, g)
  }

  // update_bond_state: between bonded and not bonded Android is shown bonding.
  function Notices(a: Address, status: nat, was: Bond, now: Bond): seq<Notice> {
    if was == now then []
    else if was.Bonding? || now.Bonding? then [Notice(a, status, now)]
    else [Notice(a, 0, Bonding), Notice(a, status, now)]
  }

  // update_device_state.
  function Update(r: Roster, a: Address, t: Transport, status: nat, p: Report): Roster
    requires a in r.flags
  {
    var s := UpdateState(r, a, t, p);
    s.(sent := r.sent + Notices(a, status, BondState(r.flags[a]), BondState(Updated(r.flags[a], t, p))))
  }

  // ------------------------------------------------------------------ runs

  datatype Event =
    | Look(a: Address)
    | Sighting(a: Address)
    | Reported(a: Address, t: Transport, status: nat, p: Report)

  // An event about a device the daemon does not know is dropped.
  function Step(r: Roster, e: Event): Roster {
    match e
    case Look(a) => Get(r, a)
    case Sighting(a) => Sighted(r, a)
    case Reported(a, t, status, p) => if a in r.flags then Update(r, a, t, status, p) else r
  }

  function Run(r: Roster, events: seq<Event>): Roster {
    if events == [] then r else Step(Run(r, events[..|events| - 1]), events[|events| - 1])
  }

  // The device an event throws out of a full cache.
  function Evicted(r: Roster, e: Event): Option<Address> {
    match e
    case Reported(a, t, _, p) =>
      if a in r.flags && Moves(r.flags[a], t, p) && !p.paired then Victim(r.cached, a) else None
    case _ => if e.a in r.flags then None else Victim(r.cached, e.a)
  }

  lemma CacheKeeps(r: Roster, a: Address, f: Flags)
    requires Distinct(r.bonded) && Distinct(r.cached) && a !in r.bonded
    requires forall b :: b in r.flags && b != a ==> (b in r.bonded <==> r.flags[b].Paired())
    requires forall b :: b in r.flags && b != a ==> (b in r.cached <==> !r.flags[b].Paired())
    requires forall b :: b in r.flags && b != a ==> r.flags[b].Sane()
    requires forall b :: b != a ==> (b in r.flags <==> (b in r.bonded || b in r.cached))
    requires f.Sane() && !f.Paired()
    ensures Coherent(Cache(r, a, f))
    ensures |r.cached| <= CACHE_MAX ==> |Cache(r, a, f).cached| <= CACHE_MAX
    ensures a in Cache(r, a, f).flags
  {
    RememberKeeps(r.cached, a);
    var v := Victim(r.cached, a);
    if v.Some? {
      assert v.value in r.cached;
      assert v.value !in r.bonded;
    }
  }

  lemma UpdatedKeeps(f: Flags, t: Transport, p: Report)
    requires f.Sane()
    ensures Updated(f, t, p).Sane()
    ensures Updated(f, t, p).Paired() == if Moves(f, t, p) then p.paired else f.Paired()
  {}

  lemma PromotionKeeps(r: Roster, a: Address, g: Flags)
    requires Coherent(r) && a in r.cached && g.Sane() && g.Paired()
    ensures Coherent(r.(bonded := [a] + r.bonded, cached := Without(r.cached, a), flags := r.flags[a := g]))
    ensures |Without(r.cached, a)| <= |r.cached|
  {
    WithoutDistinct(r.cached, a);
  }

  lemma UpdateStateKeeps(r: Roster, a: Address, t: Transport, p: Report)
    requires Coherent(r) && a in r.flags
    ensures Coherent(UpdateState(r, a, t, p))
    ensures |r.cached| <= CACHE_MAX ==> |UpdateState(r, a, t, p).cached| <= CACHE_MAX
    ensures a in UpdateState(r, a, t, p).flags && UpdateState(r, a, t, p).flags[a] == Updated(r.flags[a], t, p)
  {
    var f, g := r.flags[a], Updated(r.flags[a], t, p);
    UpdatedKeeps(f, t, p);
    hide Updated, Shielded, NothingNew;
    if Moves(f, t, p) {
      if p.paired {
        PromotionKeeps(r, a, g);
      } else {
        WithoutDistinct(r.bonded, a);
        CacheKeeps(r.(bonded := Without(r.bonded, a)), a, g);
      }
    }
  }

  lemma StepKeeps(r: Roster, e: Event)
    requires Coherent(r)
    ensures Coherent(Step(r, e))
    ensures |r.cached| <= CACHE_MAX ==> |Step(r, e).cached| <= CACHE_MAX
  {
    match e
    case Look(a) =>
      if a !in r.flags { CacheKeeps(r, a, FRESH); }
    case Sighting(a) =>
      if a !in r.flags { CacheKeeps(r, a, FRESH); }
      var known := Get(r, a);
      if !known.flags[a].Paired() { CacheKeeps(known, a, known.flags[a]); }
    case Reported(a, t, _, p) =>
      if a in r.flags { UpdateStateKeeps(r, a, t, p); }
  }

  // Over every run from a coherent start the lists and flags agree and the
  // cache stays within its bound.
  lemma {:induction false} RunKeeps(r: Roster, events: seq<Event>)
    requires Coherent(r)
    ensures Coherent(Run(r, events))
    ensures |r.cached| <= CACHE_MAX ==> |Run(r, events).cached| <= CACHE_MAX
  {
    if events != [] {
      RunKeeps(r, events[..|events| - 1]);
      StepKeeps(Run(r, events[..|events| - 1]), events[|events| - 1]);
    }
  }

  lemma CacheEvicts(r: Roster, a: Address, f: Flags, v: Address)
    requires Coherent(r) && (a in r.flags ==> !r.flags[a].Paired())
    ensures (v in r.flags && v !in Cache(r, a, f).flags) <==> Victim(r.cached, a) == Some(v)
    ensures a in Cache(r, a, f).flags && Victim(Remember(r.cached, a), a) == None
    ensures Victim(r.cached, a) == Some(v) ==>
      |r.cached| >= CACHE_MAX && v == r.cached[|r.cached| - 1] && v != a && v in r.flags && !r.flags[v].Paired()
    ensures a in r.flags ==> Victim(r.cached, a) == None
  {
    RememberKeeps(r.cached, a);
  }

  lemma UpdateEvicts(r: Roster, a: Address, t: Transport, p: Report, v: Address)
    requires Coherent(r) && a in r.flags
    ensures (v in r.flags && v !in UpdateState(r, a, t, p).flags)
      <==> Moves(r.flags[a], t, p) && !p.paired && Victim(r.cached, a) == Some(v)
    ensures Victim(r.cached, a) == Some(v) ==>
      |r.cached| >= CACHE_MAX && v == r.cached[|r.cached| - 1] && v != a && v in r.flags && !r.flags[v].Paired()
  {
    RememberKeeps(r.cached, a);
    hide Updated, Moves, Remember, Distinct;
  }

  // A device is forgotten only when the cache is full and another one enters;
  // it is then the least recently cached one, and unpaired.
  lemma EvictsOnlyTheOldest(r: Roster, e: Event, v: Address)
    requires Coherent(r)
    ensures (v in r.flags && v !in Step(r, e).flags) <==> Evicted(r, e) == Some(v)
    ensures Evicted(r, e) == Some(v) ==>
      |r.cached| >= CACHE_MAX && v == r.cached[|r.cached| - 1] && v != e.a && !r.flags[v].Paired()
  {
    match e
    case Look(a) =>
      if a !in r.flags { CacheEvicts(r, a, FRESH, v); }
    case Sighting(a) =>
      if a !in r.flags {
        CacheEvicts(r, a, FRESH, v);
        hide Coherent, Victim, Remember;
      } else if !r.flags[a].Paired() {
        CacheEvicts(r, a, r.flags[a], v);
        hide Coherent, Victim, Remember;
      }
    case Reported(a, t, _, p) =>
      if a in r.flags { UpdateEvicts(r, a, t, p, v); }
      hide UpdateState, Coherent, Victim, Moves;
  }

  // A transport loses its pairing exactly when a report says so outside any
  // pairing procedure; the other transport is never touched.
  lemma PairingLost(f: Flags, t: Transport, p: Report)
    requires f.Sane()
    ensures f.PairedOn(t) ==> (!Updated(f, t, p).PairedOn(t) <==> !p.pairing && !p.paired && !f.pairing)
    ensures !f.PairedOn(t) ==> (Updated(f, t, p).PairedOn(t) <==> p.paired)
    ensures Updated(f, t, p).BondedOn(t) <==>
      Updated(f, t, p).PairedOn(t) && (f.BondedOn(t) || (p.bonded && !Shielded(f, t, p)))
    ensures Updated(f, t, p).PairedOn(Other(t)) == f.PairedOn(Other(t))
    ensures Updated(f, t, p).BondedOn(Other(t)) == f.BondedOn(Other(t))
    ensures Updated(f, t, p).pairing == p.pairing
  {}

  // ----------------------------------------------------- what Android hears

  function StateOf(r: Roster, a: Address): Bond {
    if a in r.flags then BondState(r.flags[a]) else Unbonded
  }

  // The states notified for one device, after the state it started in.
  function Heard(start: Bond, sent: seq<Notice>, a: Address): (s: seq<Bond>)
    ensures |s| >= 1
  {
    if sent == [] then [start]
    else
      var n := sent[|sent| - 1];
      Heard(start, sent[..|sent| - 1], a) + if n.address == a then [n.state] else []
  }

  predicate LegalStep(x: Bond, y: Bond) { x != y && (x.Bonding? || y.Bonding?) }

  // No two equal neighbours, and never bonded next to not bonded.
  ghost predicate LegalWalk(s: seq<Bond>) { forall i :: 0 <= i < |s| - 1 ==> LegalStep(s[i], s[i + 1]) }

  function Last(s: seq<Bond>): Bond
    requires |s| >= 1
  {
    s[|s| - 1]
  }

  ghost predicate InStep(start: Bond, r: Roster, a: Address) {
    LegalWalk(Heard(start, r.sent, a)) && Last(Heard(start, r.sent, a)) == StateOf(r, a)
  }

  lemma WalkExtends(s: seq<Bond>, x: Bond)
    requires |s| >= 1 && LegalWalk(s) && LegalStep(Last(s), x)
    ensures LegalWalk(s + [x]) && Last(s + [x]) == x
  {
    forall i | 0 <= i < |s + [x]| - 1 ensures LegalStep((s + [x])[i], (s + [x])[i + 1]) {
      if i < |s| - 1 { assert LegalStep(s[i], s[i + 1]); }
    }
  }

  lemma {:induction false} HeardOne(start: Bond, sent: seq<Notice>, n: Notice, a: Address)
    ensures Heard(start, sent + [n], a) == Heard(start, sent, a) + if n.address == a then [n.state] else []
  {
    assert (sent + [n])[..|sent|] == sent;
  }

  lemma HeardNext(start: Bond, sent: seq<Notice>, n: Notice, a: Address)
    requires LegalWalk(Heard(start, sent, a))
    requires a == n.address ==> LegalStep(Last(Heard(start, sent, a)), n.state)
    ensures LegalWalk(Heard(start, sent + [n], a))
    ensures Last(Heard(start, sent + [n], a)) == if a == n.address then n.state else Last(Heard(start, sent, a))
  {
    HeardOne(start, sent, n, a);
    if a == n.address { WalkExtends(Heard(start, sent, a), n.state); }
  }

  lemma HeardMore(start: Bond, sent: seq<Notice>, b: Address, status: nat, was: Bond, now: Bond, a: Address)
    requires LegalWalk(Heard(start, sent, a))
    requires a == b ==> Last(Heard(start, sent, a)) == was
    ensures LegalWalk(Heard(start, sent + Notices(b, status, was, now), a))
    ensures Last(Heard(start, sent + Notices(b, status, was, now), a))
      == if a == b then now else Last(Heard(start, sent, a))
  {
    var notices := Notices(b, status, was, now);
    hide LegalWalk, Heard;
    if |notices| == 0 {
      assert sent + notices == sent;
    } else {
      HeardNext(start, sent, notices[0], a);
      if |notices| == 2 {
        HeardNext(start, sent + [notices[0]], notices[1], a);
        assert sent + notices == sent + [notices[0]] + [notices[1]];
      } else {
        assert sent + notices == sent + [notices[0]];
      }
    }
  }

  lemma CacheStates(r: Roster, a: Address, f: Flags, b: Address)
    ensures StateOf(Cache(r, a, f), b) ==
      if b == a then BondState(f) else if Victim(r.cached, a) == Some(b) then Unbonded else StateOf(r, b)
  {}

  lemma UpdateStates(r: Roster, a: Address, t: Transport, p: Report, b: Address)
    requires Coherent(r) && a in r.flags
    ensures StateOf(UpdateState(r, a, t, p), b) ==
      if b == a then BondState(Updated(r.flags[a], t, p))
      else if Moves(r.flags[a], t, p) && !p.paired && Victim(r.cached, a) == Some(b) then Unbonded
      else StateOf(r, b)
  {
    hide Coherent, Updated, Moves, Victim, BondState, Remember;
    UpdateStateKeeps(r, a, t, p);
  }

  lemma SightedStates(r: Roster, a: Address, b: Address)
    requires Coherent(r)
    ensures StateOf(Sighted(r, a), b) ==
      if a !in r.flags && Victim(r.cached, a) == Some(b) then Unbonded else StateOf(r, b)
  {
    if a !in r.flags {
      CacheStates(r, a, FRESH, b);
      CacheEvicts(r, a, FRESH, b);
      CacheStates(Get(r, a), a, FRESH, b);
    } else if !r.flags[a].Paired() {
      CacheStates(r, a, r.flags[a], b);
      CacheEvicts(r, a, r.flags[a], b);
    }
    hide Coherent, Victim, Remember, BondState;
  }

  lemma StepState(r: Roster, e: Event, a: Address)
    requires Coherent(r)
    ensures StateOf(Step(r, e), a) ==
      if Evicted(r, e) == Some(a) then Unbonded
      else if e.Reported? && e.a == a && a in r.flags then BondState(Updated(r.flags[a], e.t, e.p))
      else StateOf(r, a)
  {
    hide Coherent, Updated, Moves, Remember, UpdateState, Cache, Sighted;
    match e
    case Look(b) =>
      CacheStates(r, b, FRESH, a);
    case Sighting(b) =>
      SightedStates(r, b, a);
    case Reported(b, t, _, p) =>
      if b in r.flags {
        UpdateStates(r, b, t, p, a);
        UpdateEvicts(r, b, t, p, a);
      }
  }

  // After one event every device Android follows is still in step, except the
  // one thrown out of the cache in the middle of a pairing: nobody is told.
  lemma StepHeard(start: Bond, r: Roster, e: Event, a: Address)
    requires Coherent(r) && InStep(start, r, a)
    ensures LegalWalk(Heard(start, Step(r, e).sent, a))
    ensures InStep(start, Step(r, e), a) <==> !CutOff(r, e, a)
  {
    StepState(r, e, a);
    EvictsOnlyTheOldest(r, e, a);
    if e.Reported? && e.a in r.flags {
      HeardMore(start, r.sent, e.a, e.status, BondState(r.flags[e.a]), BondState(Updated(r.flags[e.a], e.t, e.p)), a);
    } else {
      assert Step(r, e).sent == r.sent;
    }
    hide Updated, Heard, LegalWalk, Moves, Coherent;
  }

  // No event of the run throws the device out while it is pairing.
  ghost predicate NeverCutOff(r: Roster, events: seq<Event>, a: Address) {
    forall k :: 0 <= k < |events| ==> !CutOff(Run(r, events[..k]), events[k], a)
  }

  predicate CutOff(r: Roster, e: Event, a: Address) {
    Evicted(r, e) == Some(a) && a in r.flags && r.flags[a].pairing
  }

  // Over every run Android hears a legal walk for each device, and the last
  // state it heard is the one the daemon holds.
  lemma {:induction false} RunHeard(r: Roster, events: seq<Event>, a: Address)
    requires Coherent(r) && r.sent == [] && NeverCutOff(r, events, a)
    ensures InStep(StateOf(r, a), Run(r, events), a)
  {
    if events != [] {
      var before, e := events[..|events| - 1], events[|events| - 1];
      forall k | 0 <= k < |before| ensures !CutOff(Run(r, before[..k]), before[k], a) {
        assert before[..k] == events[..k];
        assert !CutOff(Run(r, events[..k]), events[k], a);
      }
      RunHeard(r, before, a);
      RunKeeps(r, before);
      assert !CutOff(Run(r, before), e, a);
      StepHeard(StateOf(r, a), Run(r, before), e, a);
    }
  }

  lemma RunOne(r: Roster, events: seq<Event>, e: Event)
    ensures Run(r, events + [e]) == Step(Run(r, events), e)
  {
    assert (events + [e])[..|events|] == events;
  }

  // The oldest device of a full cache, forgotten while pairing, comes back as
  // a fresh one.
  lemma Forgotten(r: Roster, a: Address, b: Address)
    requires Coherent(r) && |r.cached| == CACHE_MAX && a == r.cached[CACHE_MAX - 1] && b !in r.flags
    ensures Coherent(Sighted(r, b)) && a !in Sighted(r, b).flags
    ensures var back := Sighted(Sighted(r, b), a);
      back.sent == r.sent && a in back.flags && back.flags[a] == FRESH
  {
    assert Step(r, Sighting(b)) == Sighted(r, b);
    StepKeeps(r, Sighting(b));
    EvictsOnlyTheOldest(r, Sighting(b), a);
    hide Coherent, Victim;
  }

  // Then a pairing request makes Android hear the bonding state twice in a row.
  lemma CutOffIsHeardTwice(r: Roster, a: Address, b: Address, start: Bond)
    requires Coherent(r) && |r.cached| == CACHE_MAX && a == r.cached[CACHE_MAX - 1] && r.flags[a].pairing
    requires b !in r.flags && InStep(start, r, a)
    ensures !LegalWalk(Heard(start,
      Run(r, [Sighting(b)] + [Sighting(a)] + [Reported(a, BrEdr, 0, Report(true, false, false))]).sent, a))
  {
    OneStateTwice(start, r, a);
    hide *;
    var e0, e1, e2 := Sighting(b), Sighting(a), Reported(a, BrEdr, 0, Report(true, false, false));
    ThreeEvents(r, e0, e1, e2);
    Forgotten(r, a, b);
    var back := Sighted(Sighted(r, b), a);
    PairingRequestHeard(back, a);
    HeardOne(start, r.sent, Notice(a, 0, Bonding), a);
  }

  lemma ThreeEvents(r: Roster, e0: Event, e1: Event, e2: Event)
    ensures Run(r, [e0] + [e1] + [e2]) == Step(Step(Step(r, e0), e1), e2)
    ensures e0.Sighting? && e1.Sighting? ==> Step(Step(r, e0), e1) == Sighted(Sighted(r, e0.a), e1.a)
  {
    assert Run(r, [] + [e0]) == Step(r, e0) by { RunOne(r, [], e0); }
    assert [] + [e0] == [e0];
    RunOne(r, [e0], e1);
    RunOne(r, [e0] + [e1], e2);
  }

  lemma PairingRequestHeard(r: Roster, a: Address)
    requires a in r.flags && r.flags[a] == FRESH
    ensures Step(r, Reported(a, BrEdr, 0, Report(true, false, false))).sent == r.sent + [Notice(a, 0, Bonding)]
  {
    hide UpdateState;
  }

  lemma OneStateTwice(start: Bond, r: Roster, a: Address)
    requires a in r.flags && r.flags[a].pairing && InStep(start, r, a)
    ensures !LegalWalk(Heard(start, r.sent, a) + [Bonding])
  {
    var heard := Heard(start, r.sent, a) + [Bonding];
    assert !LegalStep(heard[|heard| - 2], heard[|heard| - 2 + 1]);
  }
}
