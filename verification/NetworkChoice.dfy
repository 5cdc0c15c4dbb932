/** assoc.c: which scanned networks suit the driver's settings, and which of them it joins. */
module NetworkChoice {
  import opened Options

  const IW_MODE_ADHOC := 1
  const IW_MODE_INFRA := 2

  datatype Security = Security(wep: bool, wpa: bool, wpa2: bool)

  /** A scanned network; wpaIe and rsnIe tell whether it sent such an element. */
  datatype Bss = Bss(bssid: nat, ssid: string, mode: nat, channel: nat, rssi: nat,
                     privacy: bool, wpaIe: bool, rsnIe: bool)

  predicate MatchNoSecurity(s: Security, b: Bss) {
    !s.wep && !s.wpa && !s.wpa2 && !b.wpaIe && !b.rsnIe && !b.privacy
  }

  predicate MatchStaticWep(s: Security, b: Bss) {
    s.wep && !s.wpa && !s.wpa2 && b.privacy
  }

  predicate MatchWpa(s: Security, b: Bss) {
    !s.wep && s.wpa && b.wpaIe
  }

  predicate MatchWpa2(s: Security, b: Bss) {
    !s.wep && s.wpa2 && b.rsnIe
  }

  predicate MatchDynamicWep(s: Security, b: Bss) {
    !s.wep && !s.wpa && !s.wpa2 && !b.wpaIe && !b.rsnIe && b.privacy
  }

  /** is_network_compatible. */
  predicate Compatible(s: Security, b: Bss, mode: nat) {
    b.mode == mode
    && (MatchNoSecurity(s, b) || MatchStaticWep(s, b) || MatchWpa(s, b) || MatchWpa2(s, b) || MatchDynamicWep(s, b))
  }

  /** The settings and the beacon decide alone: without any security the network must not ask for
      WPA or WPA2, whether it encrypts or not; with WEP alone it must encrypt; with WPA or WPA2 it
      must offer one of those enabled; WEP together with WPA or WPA2 suits no network. */
  lemma CompatibleExactly(s: Security, b: Bss, mode: nat)
    ensures Compatible(s, b, mode) <==>
              b.mode == mode
              && if s.wpa || s.wpa2 then !s.wep && ((s.wpa && b.wpaIe) || (s.wpa2 && b.rsnIe))
                 else if s.wep then b.privacy
                 else !b.wpaIe && !b.rsnIe
  {
  }

  predicate Suits(s: Security, b: Bss, mode: nat) {
    mode == IW_MODE_INFRA || mode == IW_MODE_ADHOC ==> Compatible(s, b, mode)
  }

  /** SCAN_RSSI: between 1 and 256, the larger the stronger. */
  function ScanRssi(rssi: nat): nat {
    0x100 - rssi % 0x100
  }

  /** The received strength is reported as its distance below 0 in one byte: the smaller that is,
      the stronger the network, and none has strength 0. */
  lemma StrengthOrder(a: nat, b: nat)
    requires a < 0x100 && b < 0x100
    ensures ScanRssi(a) > ScanRssi(b) <==> a < b
    ensures 1 <= ScanRssi(a) <= 0x100
  {
  }

  datatype Query = Query(ssid: string, bssid: Option<nat>, mode: nat, channel: int)

  predicate Asked(s: Security, q: Query, b: Bss) {
    && b.ssid == q.ssid && (q.bssid.Some? ==> b.bssid == q.bssid.value)
    && (q.channel > 0 ==> b.channel == q.channel) && Suits(s, b, q.mode)
  }

  predicate StopsAtFirst(q: Query) {
    q.bssid.Some? && (q.mode == IW_MODE_INFRA || q.mode == IW_MODE_ADHOC)
  }

  /** In any mode but the two, every network will do. */
  predicate Welcome(s: Security, b: Bss, mode: nat) {
    (mode != 1 && mode != 2) || Compatible(s, b, mode)
  }

  /** lbs_find_ssid_in_list: the first network asked for when the BSSID and a mode are given,
      else the first of the strongest ones. */
  method FindSsidInList(s: Security, nets: seq<Bss>, q: Query) returns (found: Option<nat>)
    ensures found == None ==> forall j :: 0 <= j < |nets| ==> !Asked(s, q, nets[j])
    ensures found == None ==>
              forall j :: 0 <= j < |nets| && nets[j].ssid == q.ssid && Welcome(s, nets[j], q.mode) ==>
                (q.bssid.Some? && nets[j].bssid != q.bssid.value) || (q.channel > 0 && nets[j].channel != q.channel)
    ensures found.Some? ==>
              found.value < |nets| && nets[found.value].ssid == q.ssid && Welcome(s, nets[found.value], q.mode)
    ensures found.Some? && q.bssid.Some? ==> nets[found.value].bssid == q.bssid.value
    ensures found.Some? && q.channel > 0 ==> nets[found.value].channel == q.channel
    ensures found.Some? ==> found.value < |nets| && Asked(s, q, nets[found.value])
    ensures found.Some? && StopsAtFirst(q) ==> forall j :: 0 <= j < found.value ==> !Asked(s, q, nets[j])
    ensures found.Some? && !StopsAtFirst(q) ==>
              forall j :: 0 <= j < |nets| && Asked(s, q, nets[j]) ==>
                ScanRssi(nets[j].rssi) <= ScanRssi(nets[found.value].rssi)
                && (j < found.value ==> ScanRssi(nets[j].rssi) < ScanRssi(nets[found.value].rssi))
  {
    var bestrssi, i := 0, 0;
    found := None;
    while i < |nets|
      invariant 0 <= i <= |nets|
      invariant found == None ==> bestrssi == 0 && forall j :: 0 <= j < i ==> !Asked(s, q, nets[j])
      invariant found.Some? ==> !StopsAtFirst(q) && found.value < i && Asked(s, q, nets[found.value])
                                && bestrssi == ScanRssi(nets[found.value].rssi)
      invariant found.Some? ==>
                  forall j :: 0 <= j < i && Asked(s, q, nets[j]) ==>
                    ScanRssi(nets[j].rssi) <= bestrssi && (j < found.value ==> ScanRssi(nets[j].rssi) < bestrssi)
    {
      var b := nets[i];
      if b.ssid == q.ssid && !(q.bssid.Some? && b.bssid != q.bssid.value)
         && !(q.channel > 0 && b.channel != q.channel) {
        if q.mode == IW_MODE_INFRA || q.mode == IW_MODE_ADHOC {
          if Compatible(s, b, q.mode) {
            if q.bssid.Some? { return Some(i); }
            if ScanRssi(b.rssi) > bestrssi { bestrssi, found := ScanRssi(b.rssi), Some(i); }
          }
        } else if ScanRssi(b.rssi) > bestrssi {
          bestrssi, found := ScanRssi(b.rssi), Some(i);
        }
      }
      i := i + 1;
    }
  }

  // ---------------------------------------------------------------- lbs_find_best_ssid_in_list

  /** The choice among the first n networks, with the best strength kept in 8 bits. */
  function Choice(s: Security, nets: seq<Bss>, mode: nat, n: nat): (c: (nat, Option<nat>))
    requires n <= |nets|
    ensures c.0 < 0x100 && (c.1.Some? ==> c.1.value < n)
  {
    if n == 0 then (0, None)
    else
      var was := Choice(s, nets, mode, n - 1);
      var b := nets[n - 1];
      if Suits(s, b, mode) && ScanRssi(b.rssi) > was.0 then (ScanRssi(b.rssi) % 0x100, Some(n - 1)) else was
  }

  method FindBestSsidInList(s: Security, nets: seq<Bss>, mode: nat) returns (best: Option<nat>)
    ensures best == Choice(s, nets, mode, |nets|).1
  {
    var bestrssi: nat, i := 0, 0;
    best := None;
    while i < |nets|
      invariant 0 <= i <= |nets| && (bestrssi, best) == Choice(s, nets, mode, i)
    {
      var b := nets[i];
      if mode == IW_MODE_INFRA || mode == IW_MODE_ADHOC {
        if Compatible(s, b, mode) {
          if ScanRssi(b.rssi) > bestrssi { bestrssi, best := ScanRssi(b.rssi) % 0x100, Some(i); }
        }
      } else if ScanRssi(b.rssi) > bestrssi {
        bestrssi, best := ScanRssi(b.rssi) % 0x100, Some(i);
      }
      i := i + 1;
    }
  }

  /** A strength of 256, which 8 bits cannot hold. */
  predicate Overflows(s: Security, b: Bss, mode: nat) {
    Suits(s, b, mode) && b.rssi % 0x100 == 0
  }

  /** Network j is the last suitable one before n. */
  predicate LastSuitable(s: Security, nets: seq<Bss>, mode: nat, n: nat, j: nat) {
    j < n <= |nets| && Suits(s, nets[j], mode) && forall k :: j < k < n ==> !Suits(s, nets[k], mode)
  }

  predicate Strongest(s: Security, nets: seq<Bss>, mode: nat, n: nat, c: Option<nat>)
    requires n <= |nets|
  {
    match c
    case None => forall j :: 0 <= j < n ==> !Suits(s, nets[j], mode)
    case Some(i) =>
      && i < n && Suits(s, nets[i], mode)
      && forall j :: 0 <= j < n && Suits(s, nets[j], mode) ==> ScanRssi(nets[j].rssi) <= ScanRssi(nets[i].rssi)
  }

  lemma {:induction false} ChoiceFacts(s: Security, nets: seq<Bss>, mode: nat, n: nat, last: nat)
    requires n <= |nets|
    requires last < n ==> LastSuitable(s, nets, mode, n, last)
    requires last >= n ==> forall j :: 0 <= j < n ==> !Suits(s, nets[j], mode)
    ensures var c := Choice(s, nets, mode, n);
            && (c.1 == None <==> last >= n) && (c.1 == None ==> c.0 == 0)
            && (c.1.Some? ==> Suits(s, nets[c.1.value], mode) && c.0 == ScanRssi(nets[c.1.value].rssi) % 0x100)
            && (c.1.Some? ==> (Overflows(s, nets[c.1.value], mode) <==> Overflows(s, nets[last], mode)))
            && ((forall j :: 0 <= j < n ==> !Overflows(s, nets[j], mode)) ==> Strongest(s, nets, mode, n, c.1))
  {
    hide Suits;
    if n == 0 {
    } else {
      var before := FindLast(s, nets, mode, n - 1);
      ChoiceFacts(s, nets, mode, n - 1, before);
      if !Suits(s, nets[n - 1], mode) && last < n { assert before == last; }
      if Suits(s, nets[n - 1], mode) { assert last == n - 1; }
    }
  }

  lemma {:induction false} FindLast(s: Security, nets: seq<Bss>, mode: nat, n: nat) returns (last: nat)
    requires n <= |nets|
    ensures last < n ==> LastSuitable(s, nets, mode, n, last)
    ensures last >= n ==> forall j :: 0 <= j < n ==> !Suits(s, nets[j], mode)
  {
    hide Suits;
    if n == 0 {
      last := 0;
    } else if Suits(s, nets[n - 1], mode) {
      last := n - 1;
    } else {
      last := FindLast(s, nets, mode, n - 1);
      if last >= n - 1 { last := n; }
    }
  }

  /** Network i is the last suitable one and overflows; or it is the first of the strongest among the
      suitable networks that come after the last one that overflows. */
  predicate Chosen(s: Security, nets: seq<Bss>, mode: nat, n: nat, i: nat)
    requires i < n <= |nets|
  {
    && Suits(s, nets[i], mode)
    && (forall j :: i < j < n && Suits(s, nets[j], mode) ==>
          nets[i].rssi % 0x100 != 0 && nets[j].rssi % 0x100 != 0 && ScanRssi(nets[j].rssi) <= ScanRssi(nets[i].rssi))
    && (nets[i].rssi % 0x100 != 0 ==>
          forall j :: 0 <= j < i && Suits(s, nets[j], mode) && NoneOverflows(s, nets, mode, j, i) ==>
            ScanRssi(nets[j].rssi) < ScanRssi(nets[i].rssi))
  }

  predicate NoneOverflows(s: Security, nets: seq<Bss>, mode: nat, from: nat, to: nat)
    requires from <= to <= |nets|
  {
    forall m :: from <= m < to ==> !Overflows(s, nets[m], mode)
  }

  lemma StillChosen(s: Security, nets: seq<Bss>, mode: nat, n: nat, i: nat)
    requires i < n < |nets| && Chosen(s, nets, mode, n, i)
    requires Suits(s, nets[n], mode) ==> ScanRssi(nets[n].rssi) <= ScanRssi(nets[i].rssi) % 0x100
    ensures Chosen(s, nets, mode, n + 1, i)
  {
    hide Suits;
  }

  lemma NewlyChosen(s: Security, nets: seq<Bss>, mode: nat, n: nat, i: nat)
    requires i < n < |nets| && Chosen(s, nets, mode, n, i)
    requires Suits(s, nets[n], mode) && ScanRssi(nets[n].rssi) > ScanRssi(nets[i].rssi) % 0x100
    ensures Chosen(s, nets, mode, n + 1, n)
  {
    hide Suits;
    forall j | 0 <= j < n && Suits(s, nets[j], mode) && NoneOverflows(s, nets, mode, j, n)
      ensures ScanRssi(nets[j].rssi) < ScanRssi(nets[n].rssi)
    {
      if j <= i {
        assert !Overflows(s, nets[i], mode);
        assert NoneOverflows(s, nets, mode, j, i);
      }
    }
  }

  /** Which network is chosen, for every list. */
  lemma {:induction false} ChosenExactly(s: Security, nets: seq<Bss>, mode: nat, n: nat)
    requires n <= |nets|
    ensures match Choice(s, nets, mode, n).1
            case None => Choice(s, nets, mode, n).0 == 0 && forall j :: 0 <= j < n ==> !Suits(s, nets[j], mode)
            case Some(i) =>
              Chosen(s, nets, mode, n, i) && Choice(s, nets, mode, n).0 == ScanRssi(nets[i].rssi) % 0x100
  {
    hide Suits, Chosen, ScanRssi;
    if n == 0 {
    } else {
      ChosenExactly(s, nets, mode, n - 1);
      var c, b := Choice(s, nets, mode, n - 1), nets[n - 1];
      if c.1 == None {
        if Suits(s, b, mode) { FirstChosen(s, nets, mode, n - 1); }
      } else if Suits(s, b, mode) && ScanRssi(b.rssi) > c.0 {
        NewlyChosen(s, nets, mode, n - 1, c.1.value);
      } else {
        StillChosen(s, nets, mode, n - 1, c.1.value);
      }
    }
  }

  lemma FirstChosen(s: Security, nets: seq<Bss>, mode: nat, n: nat)
    requires n < |nets| && Suits(s, nets[n], mode) && forall j :: 0 <= j < n ==> !Suits(s, nets[j], mode)
    ensures Chosen(s, nets, mode, n + 1, n) && ScanRssi(nets[n].rssi) > 0
  {
    hide Suits;
  }

  /** At most one network satisfies that. */
  lemma ChosenIsUnique(s: Security, nets: seq<Bss>, mode: nat, i: nat, k: nat)
    requires i < |nets| && k < |nets| && Chosen(s, nets, mode, |nets|, i) && Chosen(s, nets, mode, |nets|, k)
    ensures i == k
  {
    hide Suits;
    if i < k { NoOverflowBetween(s, nets, mode, i, k); }
    if k < i { NoOverflowBetween(s, nets, mode, k, i); }
  }

  lemma NoOverflowBetween(s: Security, nets: seq<Bss>, mode: nat, i: nat, k: nat)
    requires i < k < |nets| && Chosen(s, nets, mode, |nets|, i) && Suits(s, nets[k], mode)
    ensures NoneOverflows(s, nets, mode, i, k)
  {
  }

  /** The choice is a strongest suitable network exactly if no suitable one overflows the
      8 bits, or the last suitable one does. */
  lemma StrongestExactly(s: Security, nets: seq<Bss>, mode: nat)
    ensures Strongest(s, nets, mode, |nets|, Choice(s, nets, mode, |nets|).1)
            <==> (forall j :: 0 <= j < |nets| ==> !Overflows(s, nets[j], mode))
                 || exists j :: 0 <= j < |nets| && LastSuitable(s, nets, mode, |nets|, j) && Overflows(s, nets[j], mode)
  {
    hide Choice, Suits;
    var last := FindLast(s, nets, mode, |nets|);
    ChoiceFacts(s, nets, mode, |nets|, last);
    forall j | 0 <= j < |nets| && LastSuitable(s, nets, mode, |nets|, j) ensures j == last {
    }
  }

  /** Two networks are enough: a strength of 256 is kept as 0, and the weaker network that
      follows is chosen. */
  lemma StrongestFails(s: Security, strong: Bss, weak: Bss)
    requires strong.rssi % 0x100 == 0 && weak.rssi % 0x100 != 0
    ensures var nets := [strong, weak];
            && Choice(s, nets, 0, 2).1 == Some(1) && ScanRssi(weak.rssi) < ScanRssi(strong.rssi)
            && !Strongest(s, nets, 0, 2, Choice(s, nets, 0, 2).1)
  {
    var nets := [strong, weak];
    assert Suits(s, nets[0], 0) && Suits(s, nets[1], 0);
    assert Choice(s, nets, 0, 1) == (0, Some(0));
  }
}
