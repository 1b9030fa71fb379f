// The daemon's device lists as it keeps them: device records on the heap, two
// global lists, and the notifications sent to Android (bluetooth.c). Every
// method is proved against the value-level roster of module Pairing.
module DeviceStore {
  import opened Options
  import opened Lists
  import opened Pairing

  class Device {
    const bdaddr: Address
    var le: bool
    var bredr: bool
    var pairing: bool
    var bredrPaired: bool
    var bredrBonded: bool
    var lePaired: bool
    var leBonded: bool

    // create_device
    constructor (bdaddr: Address, t: Transport)
      ensures this.bdaddr == bdaddr && bredr == t.BrEdr? && le == t.Le?
      ensures State() == FRESH
    {
      this.bdaddr := bdaddr;
      bredr, le := t.BrEdr?, t.Le?;
      pairing, bredrPaired, bredrBonded, lePaired, leBonded := false, false, false, false, false;
    }

    function State(): Flags
      reads this
    {
      Flags(pairing, bredrPaired, bredrBonded, lePaired, leBonded)
    }

    // device_bond_state
    function DeviceBondState(): (b: Bond)
      reads this
      ensures b == BondState(State())
    {
      if pairing then Bonding
      else if bredrPaired || lePaired then Bonded
      else Unbonded
    }
  }

  function Addresses(s: seq<Device>): seq<Address> { seq(|s|, i requires 0 <= i < |s| => s[i].bdaddr) }

  ghost function Records(bonded: seq<Device>, cached: seq<Device>): set<Device> {
    (set d | d in bonded) + (set d | d in cached)
  }

  ghost predicate OnePerAddress(known: set<Device>) {
    forall d, e :: d in known && e in known && d.bdaddr == e.bdaddr ==> d == e
  }

  ghost function States(known: set<Device>): map<Address, Flags>
    requires OnePerAddress(known)
    reads known
  {
    map d | d in known :: d.bdaddr := d.State()
  }

  // The roster two lists of records stand for.
  ghost function View(bonded: seq<Device>, cached: seq<Device>, sent: seq<Notice>): Roster
    requires OnePerAddress(Records(bonded, cached))
    reads Records(bonded, cached)
  {
    Roster(Addresses(bonded), Addresses(cached), States(Records(bonded, cached)), sent)
  }

  ghost predicate InOrder(bonded: seq<Device>, cached: seq<Device>, sent: seq<Notice>)
    reads Records(bonded, cached)
  {
    OnePerAddress(Records(bonded, cached)) && Coherent(View(bonded, cached, sent))
  }

  lemma {:induction false} WithoutRecord(s: seq<Device>, d: Device)
    requires forall e :: e in s && e.bdaddr == d.bdaddr ==> e == d
    ensures Addresses(Without(s, d)) == Without(Addresses(s), d.bdaddr)
    ensures d.bdaddr in Addresses(s) <==> d in s
  {
    if s != [] {
      assert Addresses(s) == [s[0].bdaddr] + Addresses(s[1..]);
      if s[0] == d {
        assert Addresses(s)[0] == d.bdaddr;
      } else {
        WithoutRecord(s[1..], d);
        assert Without(s, d) == [s[0]] + Without(s[1..], d);
      }
    }
  }

  lemma AddressesJoin(s: seq<Device>, t: seq<Device>)
    ensures Addresses(s + t) == Addresses(s) + Addresses(t)
  {}

  // Dropping one record x and putting d in front.
  lemma Refronted(s: seq<Device>, d: Device, x: Device)
    requires OnePerAddress(Records(s, []) + {d}) && (x == d || x in s)
    ensures Addresses([d] + Without(s, x)) == [d.bdaddr] + Without(Addresses(s), x.bdaddr)
    ensures x.bdaddr in Addresses(s) <==> x in s
  {
    var known := Records(s, []) + {d};
    assert x in known && forall e :: e in s ==> e in known;
    WithoutRecord(s, x);
    AddressesJoin([d], Without(s, x));
    assert Addresses([d]) == [d.bdaddr];
  }

  lemma RememberRecord(s: seq<Device>, d: Device)
    requires OnePerAddress(Records(s, []) + {d})
    ensures Addresses(Remember(s, d)) == Remember(Addresses(s), d.bdaddr)
  {
    hide Without, OnePerAddress;
    assert |Addresses(s)| == |s|;
    if |s| > 0 {
      Refronted(s, d, s[|s| - 1]);
      assert Addresses(s)[|s| - 1] == s[|s| - 1].bdaddr;
    }
    Refronted(s, d, d);
    assert Addresses([d] + s) == [d.bdaddr] + Addresses(s);
  }

  lemma VictimRecord(s: seq<Device>, d: Device)
    requires OnePerAddress(Records(s, []) + {d})
    ensures Victim(Addresses(s), d.bdaddr)
      == if Victim(s, d).Some? then Some(Victim(s, d).value.bdaddr) else None
    ensures Victim(s, d).Some? ==> Victim(s, d).value in s
  {
    Refronted(s, d, d);
    assert |Addresses(s)| == |s|;
  }

  lemma DistinctRecords(s: seq<Device>)
    requires Distinct(Addresses(s))
    ensures Distinct(s)
  {
    forall i, j | 0 <= i < j < |s| ensures s[i] != s[j] {
      assert Addresses(s)[i] != Addresses(s)[j];
    }
  }

  lemma StatesWithout(known: set<Device>, d: Device)
    requires OnePerAddress(known) && d in known
    ensures States(known - {d}) == States(known) - {d.bdaddr}
  {
    var less := known - {d};
    assert forall e :: e in less ==> e.bdaddr != d.bdaddr;
  }

  lemma StatesWith(known: set<Device>, d: Device)
    requires OnePerAddress(known + {d})
    ensures States(known + {d}) == States(known)[d.bdaddr := d.State()]
  {
    assert d in known + {d};
    assert forall e :: e in known ==> e in known + {d};
  }

  lemma RememberedRecords(bonded: seq<Device>, cached: seq<Device>, d: Device)
    requires Distinct(cached) && forall e :: e in cached ==> e !in bonded
    ensures var known := Records(bonded, cached);
      Records(bonded, Remember(cached, d))
        == (if Victim(cached, d).Some? then known - {Victim(cached, d).value} else known) + {d}
  {
    RememberKeeps(cached, d);
    var known := Records(bonded, cached);
    var next := Records(bonded, Remember(cached, d));
    if Victim(cached, d).Some? {
      var v := Victim(cached, d).value;
      assert Victim(cached, d) == Some(v);
      assert next == known - {v} + {d};
    } else {
      assert forall e :: e in cached ==> Victim(cached, d) != Some(e);
      assert next == known + {d};
    }
  }

  lemma CacheView(bonded: seq<Device>, cached: seq<Device>, sent: seq<Notice>, d: Device)
    requires OnePerAddress(Records(bonded, cached) + {d})
    requires Distinct(cached) && forall e :: e in cached ==> e !in bonded
    ensures OnePerAddress(Records(bonded, Remember(cached, d)))
    ensures View(bonded, Remember(cached, d), sent) == Cache(View(bonded, cached, sent), d.bdaddr, d.State())
  {
    var known := Records(bonded, cached);
    RememberedRecords(bonded, cached, d);
    assert Records(cached, []) + {d} <= known + {d};
    RememberRecord(cached, d);
    VictimRecord(cached, d);
    assert forall e :: e in Records(bonded, Remember(cached, d)) ==> e in known + {d};
    if Victim(cached, d).Some? {
      var v := Victim(cached, d).value;
      assert v in known;
      StatesWithout(known, v);
      StatesWith(known - {v}, d);
    } else {
      StatesWith(known, d);
    }
    hide States, Addresses, Remember, Victim;
  }

  lemma VictimOther(cached: seq<Address>, a: Address)
    ensures Victim(cached, a) != Some(a)
  {}

  // Two cache steps that differ only in what they held about the device.
  lemma CacheAgrees(r: Roster, q: Roster, a: Address, f: Flags)
    requires r.bonded == q.bonded && r.cached == q.cached && r.sent == q.sent
    requires r.flags[a := f] == q.flags[a := f]
    requires Victim(r.cached, a) != Some(a)
    ensures Cache(r, a, f) == Cache(q, a, f)
  {
    forall b | b != a ensures b in r.flags <==> b in q.flags
      ensures b in r.flags ==> r.flags[b] == q.flags[b]
    {
      assert b in r.flags[a := f] <==> b in q.flags[a := f];
      if b in r.flags { assert r.flags[a := f][b] == q.flags[a := f][b]; }
    }
    assert Cache(r, a, f).flags == Cache(q, a, f).flags;
  }

  lemma Membership(bonded: seq<Device>, cached: seq<Device>, sent: seq<Notice>, d: Device)
    requires InOrder(bonded, cached, sent)
    requires forall e :: e in Records(bonded, cached) && e.bdaddr == d.bdaddr ==> e == d
    ensures var r := View(bonded, cached, sent);
      && (d in bonded <==> d.bdaddr in r.bonded)
      && (d in cached <==> d.bdaddr in r.cached)
      && (d in Records(bonded, cached) <==> d.bdaddr in r.flags)
      && (d in Records(bonded, cached) ==> r.flags[d.bdaddr] == d.State())
  {
    WithoutRecord(bonded, d);
    WithoutRecord(cached, d);
  }

  lemma ListsApart(bonded: seq<Device>, cached: seq<Device>, sent: seq<Notice>)
    requires InOrder(bonded, cached, sent)
    ensures Distinct(bonded) && Distinct(cached)
    ensures forall e :: e in cached ==> e !in bonded
  {
    DistinctRecords(bonded);
    DistinctRecords(cached);
    forall e | e in cached ensures e !in bonded {
      Membership(bonded, cached, sent, e);
    }
  }

  // Caching an unpaired device keeps the lists in order.
  lemma Caching(bonded: seq<Device>, cached: seq<Device>, sent: seq<Notice>, d: Device)
    requires InOrder(bonded, cached, sent)
    requires forall e :: e in Records(bonded, cached) && e.bdaddr == d.bdaddr ==> e == d
    requires d.State().Sane() && !d.State().Paired()
    ensures d in Remember(cached, d)
    ensures InOrder(bonded, Remember(cached, d), sent)
    ensures View(bonded, Remember(cached, d), sent) == Cache(View(bonded, cached, sent), d.bdaddr, d.State())
  {
    ListsApart(bonded, cached, sent);
    Membership(bonded, cached, sent, d);
    CacheView(bonded, cached, sent, d);
    CacheKeeps(View(bonded, cached, sent), d.bdaddr, d.State());
    RememberKeeps(cached, d);
  }

  lemma CachingNew(bonded: seq<Device>, cached: seq<Device>, sent: seq<Notice>, d: Device)
    requires InOrder(bonded, cached, sent)
    requires d.bdaddr !in View(bonded, cached, sent).flags && d.State() == FRESH
    ensures d in Remember(cached, d)
    ensures InOrder(bonded, Remember(cached, d), sent)
    ensures View(bonded, Remember(cached, d), sent) == Get(View(bonded, cached, sent), d.bdaddr)
  {
    forall e | e in Records(bonded, cached) ensures e.bdaddr != d.bdaddr {
      Membership(bonded, cached, sent, e);
    }
    Caching(bonded, cached, sent, d);
  }

  lemma CachingKnown(bonded: seq<Device>, cached: seq<Device>, sent: seq<Notice>, d: Device)
    requires InOrder(bonded, cached, sent) && d in Records(bonded, cached) && !d.State().Paired()
    ensures InOrder(bonded, Remember(cached, d), sent)
    ensures View(bonded, Remember(cached, d), sent) == Cache(View(bonded, cached, sent), d.bdaddr, d.State())
  {
    Membership(bonded, cached, sent, d);
    Caching(bonded, cached, sent, d);
  }

  // The lists before, with nothing changed since but the record d.
  ghost predicate OnlyChanged(bonded: seq<Device>, cached: seq<Device>, r: Roster, d: Device)
    reads Records(bonded, cached)
  {
    && OnePerAddress(Records(bonded, cached)) && d in Records(bonded, cached)
    && r.bonded == Addresses(bonded) && r.cached == Addresses(cached)
    && States(Records(bonded, cached)) == r.flags[d.bdaddr := d.State()]
  }

  lemma Promoted(bonded: seq<Device>, cached: seq<Device>, r: Roster, d: Device)
    requires OnlyChanged(bonded, cached, r, d) && d in cached
    ensures var known := Records([d] + bonded, Without(cached, d));
      && OnePerAddress(known)
      && View([d] + bonded, Without(cached, d), r.sent)
        == r.(bonded := [d.bdaddr] + r.bonded, cached := Without(r.cached, d.bdaddr),
              flags := r.flags[d.bdaddr := d.State()])
  {
    WithoutRecord(cached, d);
    AddressesJoin([d], bonded);
    WithoutContents(cached, d);
    assert Records([d] + bonded, Without(cached, d)) == Records(bonded, cached);
    assert Addresses([d]) == [d.bdaddr];
    hide Addresses, States, Without;
  }

  lemma Demoted(bonded: seq<Device>, cached: seq<Device>, r: Roster, d: Device)
    requires OnlyChanged(bonded, cached, r, d)
    requires Distinct(bonded) && Distinct(cached) && forall e :: e in cached ==> e !in bonded
    ensures OnePerAddress(Records(Without(bonded, d), Remember(cached, d)))
    ensures View(Without(bonded, d), Remember(cached, d), r.sent)
      == Cache(r.(bonded := Without(r.bonded, d.bdaddr)), d.bdaddr, d.State())
  {
    var rest := Without(bonded, d);
    var known := Records(bonded, cached);
    WithoutRecord(bonded, d);
    WithoutDistinct(bonded, d);
    assert Records(rest, cached) + {d} == known;
    CacheView(rest, cached, r.sent, d);
    StatesWith(Records(rest, cached), d);
    var q := View(rest, cached, r.sent);
    assert q.flags[d.bdaddr := d.State()] == r.flags[d.bdaddr := d.State()];
    VictimOther(Addresses(cached), d.bdaddr);
    CacheAgrees(q, r.(bonded := Addresses(rest)), d.bdaddr, d.State());
  }

  // Where update_bredr_state and update_le_state put a device whose flags were f.
  ghost function Relisted(bonded: seq<Device>, cached: seq<Device>, d: Device, f: Flags, t: Transport, p: Report):
    (seq<Device>, seq<Device>)
  {
    if !Moves(f, t, p) then (bonded, cached)
    else if p.paired then ([d] + bonded, Without(cached, d))
    else (Without(bonded, d), Remember(cached, d))
  }

  lemma AfterUpdate(bonded: seq<Device>, cached: seq<Device>, r: Roster, d: Device, t: Transport, p: Report)
    requires OnlyChanged(bonded, cached, r, d)
    requires Distinct(bonded) && Distinct(cached) && forall e :: e in cached ==> e !in bonded
    requires Coherent(r) && d.bdaddr in r.flags && (r.flags[d.bdaddr].Paired() <==> d in bonded)
    requires d.State() == Updated(r.flags[d.bdaddr], t, p)
    ensures var (b, c) := Relisted(bonded, cached, d, r.flags[d.bdaddr], t, p);
      InOrder(b, c, r.sent) && View(b, c, r.sent) == UpdateState(r, d.bdaddr, t, p)
  {
    hide Coherent, Updated, Shielded, NothingNew, OnePerAddress, Remember, Without, Addresses, States, Moves;
    UpdateStateKeeps(r, d.bdaddr, t, p);
    var f := r.flags[d.bdaddr];
    MovesMeans(f, t, p);
    if Moves(f, t, p) {
      if p.paired {
        Promoted(bonded, cached, r, d);
      } else {
        Demoted(bonded, cached, r, d);
      }
    }
  }

  lemma MovesMeans(f: Flags, t: Transport, p: Report)
    ensures Moves(f, t, p) && p.paired ==> !f.Paired()
  {}

  lemma SentApart(bonded: seq<Device>, cached: seq<Device>, before: seq<Notice>, sent: seq<Notice>)
    requires InOrder(bonded, cached, before)
    ensures InOrder(bonded, cached, sent)
    ensures View(bonded, cached, sent) == View(bonded, cached, before).(sent := sent)
  {}

  class Adapter {
    var bonded: seq<Device>
    var cached: seq<Device>
    var sent: seq<Notice>

    ghost function Known(): set<Device>
      reads this
    {
      Records(bonded, cached)
    }

    ghost predicate Valid()
      reads this, Known()
    {
      InOrder(bonded, cached, sent)
    }

    ghost function Model(): Roster
      requires Valid()
      reads this, Known()
    {
      View(bonded, cached, sent)
    }

    constructor ()
      ensures Valid() && Model() == Roster([], [], map[], [])
    {
      bonded, cached, sent := [], [], [];
    }

    // find_device: the bonded list first.
    method FindDevice(bdaddr: Address) returns (d: Device?)
      requires Valid()
      ensures d != null ==> d in Known() && d.bdaddr == bdaddr && bdaddr in Model().flags
      ensures d == null ==> bdaddr !in Model().flags
    {
      for i := 0 to |bonded|
        invariant forall j :: 0 <= j < i ==> bonded[j].bdaddr != bdaddr
      {
        if bonded[i].bdaddr == bdaddr { return bonded[i]; }
      }
      for i := 0 to |cached|
        invariant forall j :: 0 <= j < i ==> cached[j].bdaddr != bdaddr
      {
        if cached[i].bdaddr == bdaddr { return cached[i]; }
      }
      d := null;
    }

    // cache_device
    method CacheDevice(newDev: Device)
      modifies this`cached
      ensures cached == Remember(old(cached), newDev)
    {
      if newDev in cached {
        cached := Without(cached, newDev);
      } else if |cached| >= CACHE_MAX {
        var dev := cached[|cached| - 1];
        cached := Without(cached, dev);
      }
      cached := [newDev] + cached;
    }

    // get_device
    method GetDevice(bdaddr: Address, t: Transport) returns (d: Device)
      requires Valid()
      modifies this`cached
      ensures Valid() && d in Known() && d.bdaddr == bdaddr
      ensures d in old(Known()) || fresh(d)
      ensures Model() == Get(old(Model()), bdaddr)
    {
      hide Coherent, Remember, Addresses, Cache, States;
      var found := FindDevice(bdaddr);
      if found != null { return found; }
      d := AddDevice(bdaddr, t);
    }

    method AddDevice(bdaddr: Address, t: Transport) returns (d: Device)
      requires Valid() && bdaddr !in Model().flags
      modifies this`cached
      ensures Valid() && d in Known() && d.bdaddr == bdaddr && fresh(d)
      ensures Model() == Get(old(Model()), bdaddr)
    {
      hide Coherent, Remember, Addresses, Cache;
      ghost var before, states := cached, States(Known());
      d := new Device(bdaddr, t);
      CacheDevice(d);
      assert States(Records(bonded, before)) == states;
      CachingNew(bonded, before, sent, d);
    }

    // update_found_device notes the transport the device was seen on.
    method NoteSeen(dev: Device, t: Transport)
      requires Valid() && dev in Known()
      modifies dev`bredr, dev`le
      ensures Valid() && Model() == old(Model()) && dev.State() == old(dev.State())
      ensures dev.bredr == (old(dev.bredr) || t.BrEdr?) && dev.le == (old(dev.le) || t.Le?)
    {
      hide Coherent, Addresses;
      if t.BrEdr? { dev.bredr := true; } else { dev.le := true; }
      assert States(Known()) == old(States(Known()));
    }

    // update_found_device, as far as the lists are concerned.
    method UpdateFoundDevice(bdaddr: Address, t: Transport)
      requires Valid()
      modifies this`cached, Known()
      ensures Valid() && Model() == Sighted(old(Model()), bdaddr)
    {
      var dev := GetDevice(bdaddr, t);
      NoteSeen(dev, t);
      hide Coherent, Remember, Addresses, Cache;
      ghost var before, states := cached, States(Known());
      Membership(bonded, cached, sent, dev);
      if !dev.bredrPaired && !dev.lePaired {
        CacheDevice(dev);
        assert States(Records(bonded, before)) == states;
        CachingKnown(bonded, before, sent, dev);
      }
    }

    lemma Starting(dev: Device)
      requires Valid() && dev in Known()
      ensures OnePerAddress(Known()) && Coherent(Model())
      ensures var r := Model();
        && dev.bdaddr in r.flags && r.flags[dev.bdaddr] == dev.State()
        && (dev.State().Paired() <==> dev in bonded)
      ensures Distinct(bonded) && Distinct(cached) && forall e :: e in cached ==> e !in bonded
    {
      Membership(bonded, cached, sent, dev);
      ListsApart(bonded, cached, sent);
    }

    // update_bredr_state
    method UpdateBredrState(dev: Device, pairing: bool, paired: bool, bond: bool)
      modifies this`bonded, this`cached, dev
      ensures dev.State() == Updated(old(dev.State()), BrEdr, Report(pairing, paired, bond))
      ensures (bonded, cached)
        == Relisted(old(bonded), old(cached), dev, old(dev.State()), BrEdr, Report(pairing, paired, bond))
    {
      if pairing == dev.pairing && paired == dev.bredrPaired && bond == dev.bredrBonded { return; }
      if (pairing && dev.bredrPaired) || (!pairing && !paired && dev.pairing && dev.bredrPaired) {
      } else {
        if paired && !dev.lePaired && !dev.bredrPaired {
          cached := Without(cached, dev);
          bonded := [dev] + bonded;
        } else if !paired && !dev.lePaired {
          bonded := Without(bonded, dev);
          CacheDevice(dev);
        }
        dev.bredrPaired := paired;
        dev.bredrBonded := dev.bredrPaired && (dev.bredrBonded || bond);
      }
      dev.pairing := pairing;
    }

    // update_le_state
    method UpdateLeState(dev: Device, pairing: bool, paired: bool, bond: bool)
      modifies this`bonded, this`cached, dev
      ensures dev.State() == Updated(old(dev.State()), Le, Report(pairing, paired, bond))
      ensures (bonded, cached)
        == Relisted(old(bonded), old(cached), dev, old(dev.State()), Le, Report(pairing, paired, bond))
    {
      if pairing == dev.pairing && paired == dev.lePaired && bond == dev.leBonded { return; }
      if (pairing && dev.lePaired) || (!pairing && !paired && dev.pairing && dev.lePaired) {
      } else {
        if paired && !dev.bredrPaired && !dev.lePaired {
          cached := Without(cached, dev);
          bonded := [dev] + bonded;
        } else if !paired && !dev.bredrPaired {
          bonded := Without(bonded, dev);
          CacheDevice(dev);
        }
        dev.lePaired := paired;
        dev.leBonded := dev.lePaired && (dev.leBonded || bond);
      }
      dev.pairing := pairing;
    }

    // update_bond_state
    method UpdateBondState(dev: Device, status: nat, oldBond: Bond, newBond: Bond)
      modifies this`sent
      ensures sent == old(sent) + Notices(dev.bdaddr, status, oldBond, newBond)
    {
      if oldBond == newBond { return; }
      if (oldBond.Unbonded? && newBond.Bonded?) || (oldBond.Bonded? && newBond.Unbonded?) {
        sent := sent + [Notice(dev.bdaddr, 0, Bonding)];
      }
      sent := sent + [Notice(dev.bdaddr, status, newBond)];
    }

    // The dispatch on the address type inside update_device_state.
    method Dispatch(dev: Device, t: Transport, pairing: bool, paired: bool, bond: bool)
      modifies this`bonded, this`cached, dev
      ensures dev.State() == Updated(old(dev.State()), t, Report(pairing, paired, bond))
      ensures (bonded, cached)
        == Relisted(old(bonded), old(cached), dev, old(dev.State()), t, Report(pairing, paired, bond))
      ensures forall e: Device :: e != dev && old(allocated(e)) ==> e.State() == old(e.State())
    {
      hide *;
      if t.BrEdr? {
        UpdateBredrState(dev, pairing, paired, bond);
      } else {
        UpdateLeState(dev, pairing, paired, bond);
      }
    }

    method UpdateState(dev: Device, t: Transport, pairing: bool, paired: bool, bond: bool)
      requires Valid() && dev in Known()
      modifies this`bonded, this`cached, dev
      ensures Valid() && old(dev.bdaddr in Model().flags)
      ensures old(Model().flags[dev.bdaddr]) == old(dev.State())
      ensures dev.State() == Updated(old(dev.State()), t, Report(pairing, paired, bond))
      ensures Model() == Pairing.UpdateState(old(Model()), dev.bdaddr, t, Report(pairing, paired, bond))
    {
      hide Coherent, Addresses, Updated, Relisted, Pairing.UpdateState, OnePerAddress, InOrder, Distinct;
      ghost var b, c, r, p := bonded, cached, Model(), Report(pairing, paired, bond);
      Starting(dev);
      ghost var states := States(Known());
      Dispatch(dev, t, pairing, paired, bond);
      assert States(Records(b, c)) == states[dev.bdaddr := dev.State()];
      AfterUpdate(b, c, r, dev, t, p);
    }

    // update_device_state
    method UpdateDeviceState(dev: Device, t: Transport, status: nat, pairing: bool, paired: bool, bond: bool)
      requires Valid() && dev in Known()
      modifies this, dev
      ensures Valid() && old(dev.bdaddr in Model().flags)
      ensures Model() == Update(old(Model()), dev.bdaddr, t, status, Report(pairing, paired, bond))
    {
      hide Coherent, Addresses, Updated, Pairing.UpdateState, OnePerAddress, States;
      var oldBond := dev.DeviceBondState();
      UpdateState(dev, t, pairing, paired, bond);
      var newBond := dev.DeviceBondState();
      ghost var before := sent;
      UpdateBondState(dev, status, oldBond, newBond);
      SentApart(bonded, cached, before, sent);
    }
  }
}
