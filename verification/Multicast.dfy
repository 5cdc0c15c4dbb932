/** main.c: the multicast filter that the card is given for the device and its mesh twin. */
module Multicast {
  import opened Options

  type Mac = m: nat | m < 0x1_0000_0000_0000

  const MAX_MULTICAST_LIST_SIZE := 32
  const EOVERFLOW := 75

  const MULTICAST_ENABLE: bv16 := 0x0020
  const PROMISCUOUS_ENABLE: bv16 := 0x0080
  const ALL_MULTICAST_ENABLE: bv16 := 0x0100

  /** The flags of a network device that matter here, and its list of multicast addresses. */
  datatype Device = Device(up: bool, multicast: bool, promisc: bool, allmulti: bool, mcList: seq<Mac>)

  function Entries(dev: Device): seq<Mac> {
    if dev.up && dev.multicast then dev.mcList else []
  }

  /** The addresses of ms that known does not have, in order. */
  function NewOnes(ms: seq<Mac>, known: seq<Mac>): seq<Mac> {
    if ms == [] then []
    else NewOnes(ms[..|ms| - 1], known) + (if ms[|ms| - 1] in known then [] else [ms[|ms| - 1]])
  }

  lemma NewOnesStep(ms: seq<Mac>, known: seq<Mac>, k: nat)
    requires k < |ms|
    ensures NewOnes(ms[..k + 1], known) == NewOnes(ms[..k], known) + (if ms[k] in known then [] else [ms[k]])
  {
    assert ms[..k + 1][..k] == ms[..k];
  }

  lemma {:induction false} NewOnesGrow(ms: seq<Mac>, known: seq<Mac>, k: nat)
    requires k <= |ms|
    ensures |NewOnes(ms[..k], known)| <= |NewOnes(ms, known)|
  {
    if k < |ms| {
      NewOnesGrow(ms[..|ms| - 1], known, k);
      assert ms[..|ms| - 1][..k] == ms[..k];
    } else {
      assert ms[..k] == ms;
    }
  }

  /** The list the worker builds. */
  function Listed(dev: Device, mesh: Option<Device>): seq<Mac> {
    Entries(dev) + (if mesh.Some? then NewOnes(Entries(mesh.value), Entries(dev)) else [])
  }

  predicate Distinct(ms: seq<Mac>) {
    forall i, j :: 0 <= i < j < |ms| ==> ms[i] != ms[j]
  }

  function Union(dev: Device, mesh: Option<Device>): set<Mac> {
    set m | m in Entries(dev) || (mesh.Some? && m in Entries(mesh.value))
  }

  // ---------------------------------------------------------------- the list

  lemma {:induction false} NewOnesExactly(ms: seq<Mac>, known: seq<Mac>)
    ensures forall m :: m in NewOnes(ms, known) <==> m in ms && m !in known
    ensures Distinct(ms) ==> Distinct(NewOnes(ms, known))
  {
    if ms == [] {
    } else {
      var n := |ms| - 1;
      NewOnesExactly(ms[..n], known);
      assert ms == ms[..n] + [ms[n]];
    }
  }

  function Elements(ms: seq<Mac>): set<Mac> {
    set m | m in ms
  }

  lemma {:induction false} DistinctCount(ms: seq<Mac>)
    requires Distinct(ms)
    ensures |Elements(ms)| == |ms|
  {
    if ms == [] {
      assert Elements(ms) == {};
    } else {
      var n := |ms| - 1;
      DistinctCount(ms[..n]);
      assert ms == ms[..n] + [ms[n]] && ms[n] !in ms[..n];
      assert Elements(ms) == Elements(ms[..n]) + {ms[n]};
    }
  }

  lemma DistinctJoin(a: seq<Mac>, b: seq<Mac>)
    requires Distinct(a) && Distinct(b) && forall m :: m in b ==> m !in a
    ensures Distinct(a + b)
  {
    forall i, j | 0 <= i < j < |a + b| ensures (a + b)[i] != (a + b)[j] {
      if i < |a| <= j { assert (a + b)[j] in b && (a + b)[i] in a; }
    }
  }

  /** From lists without duplicates: the list has every address of the two devices once, so
      its length is the size of their union. */
  lemma ListedExactly(dev: Device, mesh: Option<Device>)
    ensures forall m :: m in Listed(dev, mesh) <==> m in Union(dev, mesh)
    ensures Distinct(Entries(dev)) && (mesh.Some? ==> Distinct(Entries(mesh.value))) ==>
              Distinct(Listed(dev, mesh)) && |Listed(dev, mesh)| == |Union(dev, mesh)|
  {
    hide NewOnes, Entries, Distinct;
    var known := Entries(dev);
    var more := if mesh.Some? then NewOnes(Entries(mesh.value), known) else [];
    if mesh.Some? { NewOnesExactly(Entries(mesh.value), known); }
    if Distinct(known) && (mesh.Some? ==> Distinct(Entries(mesh.value))) {
      if mesh.Some? { DistinctJoin(known, more); } else { assert known + more == known; }
      DistinctCount(Listed(dev, mesh));
      assert Elements(Listed(dev, mesh)) == Union(dev, mesh);
    }
  }

  /** mac_in_list. */
  method MacInList(list: array<Mac>, len: nat, mac: Mac) returns (found: bool)
    requires len <= list.Length
    ensures found <==> mac in list[..len]
  {
    var k := 0;
    while k < len
      invariant 0 <= k <= len && mac !in list[..k]
    {
      if list[k] == mac { return true; }
      k := k + 1;
    }
    found := false;
  }

  /** lbs_add_mcast_addrs. */
  method AddMcastAddrs(maclist: array<Mac>, dev: Device, nrAddrs: nat) returns (r: int)
    requires maclist.Length == MAX_MULTICAST_LIST_SIZE && nrAddrs <= MAX_MULTICAST_LIST_SIZE
    modifies maclist
    ensures r < 0 <==> nrAddrs + |NewOnes(Entries(dev), old(maclist[..nrAddrs]))| > MAX_MULTICAST_LIST_SIZE
    ensures r < 0 ==> r == -EOVERFLOW
    ensures r >= 0 ==> r <= MAX_MULTICAST_LIST_SIZE
                       && maclist[..r] == old(maclist[..nrAddrs]) + NewOnes(Entries(dev), old(maclist[..nrAddrs]))
  {
    ghost var known := maclist[..nrAddrs];
    if !(dev.up && dev.multicast) { return nrAddrs; }
    hide NewOnes;
    var ms := dev.mcList;
    NoNewOnes(ms, known);
    var i, k := nrAddrs, 0;
    while k < |ms|
      invariant 0 <= k <= |ms| && nrAddrs <= i <= MAX_MULTICAST_LIST_SIZE
      invariant maclist[..nrAddrs] == known
      invariant i == nrAddrs + |NewOnes(ms[..k], known)| && maclist[..i] == known + NewOnes(ms[..k], known)
    {
      NewOnesStep(ms, known, k);
      NewOnesGrow(ms, known, k + 1);
      var skip := MacInList(maclist, nrAddrs, ms[k]);
      if !skip {
        if i == MAX_MULTICAST_LIST_SIZE { return -EOVERFLOW; }
        maclist[i] := ms[k];
        i := i + 1;
      }
      k := k + 1;
    }
    assert ms[..k] == ms;
    r := i;
  }

  lemma NoNewOnes(ms: seq<Mac>, known: seq<Mac>)
    ensures NewOnes(ms[..0], known) == []
  {
  }

  // ---------------------------------------------------------------- the filter

  datatype Mode = Promiscuous | AllMulticast | Selected | Unicast

  predicate HasMode(control: bv16, mode: Mode) {
    && (control & PROMISCUOUS_ENABLE != 0 <==> mode == Promiscuous)
    && (control & ALL_MULTICAST_ENABLE != 0 <==> mode == AllMulticast)
    && (control & MULTICAST_ENABLE != 0 <==> mode == Selected)
  }

  predicate SameOtherBits(a: bv16, b: bv16) {
    a & 0xFE5F == b & 0xFE5F
  }

  /** The mode that the devices ask for. */
  function ModeFor(dev: Device, mesh: Option<Device>): Mode {
    if dev.promisc || (mesh.Some? && mesh.value.promisc) then Promiscuous
    else if dev.allmulti || (mesh.Some? && mesh.value.allmulti) then AllMulticast
    else if |Listed(dev, mesh)| > MAX_MULTICAST_LIST_SIZE then AllMulticast
    else if Listed(dev, mesh) != [] then Selected
    else Unicast
  }

  /** A card with this control word and address list lets a frame for m pass. */
  predicate Passes(control: bv16, list: seq<Mac>, m: Mac) {
    control & PROMISCUOUS_ENABLE != 0 || control & ALL_MULTICAST_ENABLE != 0
    || (control & MULTICAST_ENABLE != 0 && m in list)
  }

  class Filter {
    var macControl: bv16

    method EnableOnly(bit: bv16)
      requires bit == PROMISCUOUS_ENABLE || bit == ALL_MULTICAST_ENABLE || bit == MULTICAST_ENABLE
      modifies this
      ensures SameOtherBits(macControl, old(macControl))
      ensures HasMode(macControl, if bit == PROMISCUOUS_ENABLE then Promiscuous
              else if bit == ALL_MULTICAST_ENABLE then AllMulticast else Selected)
    {
      macControl := macControl | bit;
      macControl := macControl & !((PROMISCUOUS_ENABLE | ALL_MULTICAST_ENABLE | MULTICAST_ENABLE) & !bit);
    }

    method DisableAll()
      modifies this
      ensures SameOtherBits(macControl, old(macControl)) && HasMode(macControl, Unicast)
    {
      macControl := macControl & !MULTICAST_ENABLE;
      macControl := macControl & !(PROMISCUOUS_ENABLE | ALL_MULTICAST_ENABLE);
    }

    /** Both calls of lbs_add_mcast_addrs. */
    method BuildList(maclist: array<Mac>, dev: Device, mesh: Option<Device>) returns (n: int)
      requires maclist.Length == MAX_MULTICAST_LIST_SIZE
      modifies maclist
      ensures n < 0 <==> |Listed(dev, mesh)| > MAX_MULTICAST_LIST_SIZE
      ensures n >= 0 ==> n <= MAX_MULTICAST_LIST_SIZE && maclist[..n] == Listed(dev, mesh)
    {
      hide NewOnes, Entries;
      assert maclist[..0] == [];
      NothingKnown(Entries(dev));
      n := AddMcastAddrs(maclist, dev, 0);
      assert [] + Entries(dev) == Entries(dev);
      if n >= 0 && mesh.Some? { n := AddMcastAddrs(maclist, mesh.value, n); }
    }

    /** lbs_set_mcast_worker: programmed is the list it sends to the card, if any, and changed
        whether it sends the control word. */
    method SetMcastWorker(dev: Device, mesh: Option<Device>) returns (programmed: Option<seq<Mac>>, changed: bool)
      modifies this
      ensures HasMode(macControl, ModeFor(dev, mesh)) && SameOtherBits(macControl, old(macControl))
      ensures programmed == if ModeFor(dev, mesh) == Selected then Some(Listed(dev, mesh)) else None
      ensures changed <==> macControl != old(macControl)
    {
      hide HasMode, SameOtherBits, Listed;
      var oldMacControl := macControl;
      programmed := None;
      if dev.promisc || (mesh.Some? && mesh.value.promisc) {
        EnableOnly(PROMISCUOUS_ENABLE);
      } else if dev.allmulti || (mesh.Some? && mesh.value.allmulti) {
        EnableOnly(ALL_MULTICAST_ENABLE);
      } else {
        var maclist := new Mac[MAX_MULTICAST_LIST_SIZE](_ => 0);
        var nrAddrs := BuildList(maclist, dev, mesh);
        if nrAddrs < 0 {
          EnableOnly(ALL_MULTICAST_ENABLE);
        } else if nrAddrs > 0 {
          programmed := Some(maclist[..nrAddrs]);
          EnableOnly(MULTICAST_ENABLE);
        } else {
          DisableAll();
        }
      }
      changed := macControl != oldMacControl;
    }
  }

  lemma {:induction false} NothingKnown(ms: seq<Mac>)
    ensures NewOnes(ms, []) == ms
  {
    if ms == [] {
    } else {
      NothingKnown(ms[..|ms| - 1]);
    }
  }

  /** Whatever mode the worker selects, every address of a device that is up for multicast
      passes; and with duplicate-free lists it gives up selection exactly if the union is
      larger than the card's table. */
  lemma EveryAddressPasses(dev: Device, mesh: Option<Device>, control: bv16, list: seq<Mac>)
    requires HasMode(control, ModeFor(dev, mesh))
    requires ModeFor(dev, mesh) == Selected ==> list == Listed(dev, mesh)
    ensures forall m :: m in Union(dev, mesh) ==> Passes(control, list, m)
    ensures ModeFor(dev, mesh) == Selected ==> |list| <= MAX_MULTICAST_LIST_SIZE
  {
    hide NewOnes;
    ListedExactly(dev, mesh);
  }

  /** A device that is up for multicast lists this address. */
  predicate Lists(dev: Device, m: Mac) {
    dev.up && dev.multicast && m in dev.mcList
  }

  /** With the mode that the worker selects a multicast frame passes if and only if one of the devices
      asks for everything, or lists the address, or the list was too long.  The card is promiscuous if
      and only if one of them asks for that, and uses the list if none asks for everything and the
      list is neither empty nor too long. */
  lemma FilterExactly(dev: Device, mesh: Option<Device>, control: bv16, list: seq<Mac>, m: Mac)
    requires HasMode(control, ModeFor(dev, mesh)) && (ModeFor(dev, mesh) == Selected ==> list == Listed(dev, mesh))
    ensures Passes(control, list, m) <==>
              || AsksForAll(dev, mesh) || |Listed(dev, mesh)| > 32
              || Lists(dev, m) || (mesh.Some? && Lists(mesh.value, m))
    ensures control & 0x0080 != 0 <==> dev.promisc || (mesh.Some? && mesh.value.promisc)
    ensures control & 0x0020 != 0 <==> !AsksForAll(dev, mesh) && 1 <= |Listed(dev, mesh)| <= 32
  {
    hide NewOnes;
    ListedExactly(dev, mesh);
    forall x: Mac ensures x in Listed(dev, mesh) <==> Lists(dev, x) || (mesh.Some? && Lists(mesh.value, x)) {
      assert x in Union(dev, mesh) <==> x in Listed(dev, mesh);
      assert x in Entries(dev) <==> Lists(dev, x);
      assert mesh.Some? ==> (x in Entries(mesh.value) <==> Lists(mesh.value, x));
    }
  }

  predicate AsksForAll(dev: Device, mesh: Option<Device>) {
    dev.promisc || dev.allmulti || (mesh.Some? && (mesh.value.promisc || mesh.value.allmulti))
  }

  lemma OverflowExactly(dev: Device, mesh: Option<Device>)
    requires Distinct(Entries(dev)) && (mesh.Some? ==> Distinct(Entries(mesh.value))) && !AsksForAll(dev, mesh)
    ensures ModeFor(dev, mesh) == AllMulticast <==> |Union(dev, mesh)| > MAX_MULTICAST_LIST_SIZE
    ensures ModeFor(dev, mesh) == Unicast <==> Union(dev, mesh) == {}
    ensures Distinct(Listed(dev, mesh))
  {
    hide NewOnes, Entries;
    ListedExactly(dev, mesh);
  }
}
