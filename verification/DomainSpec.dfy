/** 802.11d country information as values: the region tables, the channels that a list of
    sub-bands stands for, and the sub-bands that the driver writes for a list of channels. */
module DomainSpec {

  type Byte = x: int | 0 <= x < 256

  datatype ChanPower = ChanPower(chan: Byte, pwr: Byte)

  datatype Subband = Subband(firstchan: Byte, nrchan: Byte, maxtxpwr: Byte)

  const COUNTRY_CODE_LEN := 3
  const MAX_NO_OF_CHAN := 40
  const MAX_SUBBAND := 83
  const TOP_CHANNEL: Byte := 14  // the last entry of channel_freq_power_UN_BG

  // ---------------------------------------------------------------- regions

  function Channels(first: Byte, last: Byte, pwr: Byte): (t: seq<ChanPower>)
    requires first <= last
    ensures |t| == last - first + 1 && forall i :: 0 <= i < |t| ==> t[i] == ChanPower(first + i, pwr)
  {
    seq(last - first + 1, i requires 0 <= i < last - first + 1 => ChanPower(first + i, pwr))
  }

  /** region_cfp_table. */
  function RegionTable(region: Byte): (t: seq<ChanPower>)
    ensures |t| <= TOP_CHANNEL
  {
    if region == 0x10 || region == 0x20 then Channels(1, 11, 20)
    else if region == 0x30 then Channels(1, 13, 20)
    else if region == 0x31 then Channels(10, 11, 20)
    else if region == 0x32 then Channels(10, 13, 20)
    else if region == 0x40 then Channels(1, 14, 16)
    else []
  }

  /** lbs_region_chan_supported_11d; no entry of the tables is marked unsupported. */
  predicate Supported(region: Byte, chan: Byte) {
    exists i :: 0 <= i < |RegionTable(region)| && RegionTable(region)[i].chan == chan
  }

  predicate InRange(region: Byte, chan: Byte) {
    var t := RegionTable(region);
    t != [] && t[0].chan <= chan <= t[|t| - 1].chan
  }

  /** The channels of a region are an interval of 1 to 14. */
  lemma SupportedInterval(region: Byte, chan: Byte)
    ensures Supported(region, chan) <==> InRange(region, chan)
    ensures Supported(region, chan) ==> 1 <= chan <= TOP_CHANNEL
    ensures Supported(region, chan) <==>
              || (region in {0x10, 0x20} && 1 <= chan <= 11) || (region == 0x30 && 1 <= chan <= 13)
              || (region == 0x31 && 10 <= chan <= 11) || (region == 0x32 && 10 <= chan <= 13)
              || (region == 0x40 && 1 <= chan <= 14)
    ensures forall i :: 0 <= i < |RegionTable(region)| ==>
              RegionTable(region)[i].pwr == if region == 0x40 then 16 else 20
  {
    var t := RegionTable(region);
    if InRange(region, chan) { assert t[chan - t[0].chan].chan == chan; }
  }

  // ---------------------------------------------------------------- parsing

  /** The last channel of a sub-band that the universal table knows. */
  function LastOf(b: Subband): int {
    if b.firstchan + b.nrchan - 1 < TOP_CHANNEL then b.firstchan + b.nrchan - 1 else TOP_CHANNEL
  }

  predicate Reaches(b: Subband) {
    b.firstchan <= LastOf(b)
  }

  /** The reference: a sub-band is accepted if it starts above every channel that an
      accepted sub-band before it has reached. */
  predicate Accepted(bands: seq<Subband>, j: nat)
    requires j < |bands|
    decreases j
  {
    && bands[j].firstchan > 0
    && forall i: nat :: i < j && Accepted(bands, i) && Reaches(bands[i]) ==> LastOf(bands[i]) < bands[j].firstchan
  }

  /** The channel c with power p comes from sub-band j. */
  predicate Grants(region: Byte, bands: seq<Subband>, j: nat, c: ChanPower) {
    && j < |bands| && Accepted(bands, j) && Supported(region, c.chan)
    && bands[j].firstchan <= c.chan <= LastOf(bands[j]) && c.pwr == bands[j].maxtxpwr
  }

  /** The value of lastchan after j sub-bands. */
  function LastChan(bands: seq<Subband>, j: nat): (l: Byte)
    requires j <= |bands|
    ensures l <= TOP_CHANNEL
  {
    if j == 0 then 0
    else if bands[j - 1].firstchan > LastChan(bands, j - 1) && Reaches(bands[j - 1]) then LastOf(bands[j - 1])
    else LastChan(bands, j - 1)
  }

  /** What the first n channels of a sub-band add to the output. */
  function Window(region: Byte, b: Subband, n: nat): seq<ChanPower> {
    if n == 0 then []
    else if b.firstchan + n - 1 <= TOP_CHANNEL && Supported(region, b.firstchan + n - 1)
    then Window(region, b, n - 1) + [ChanPower(b.firstchan + n - 1, b.maxtxpwr)]
    else Window(region, b, n - 1)
  }

  /** The output after j sub-bands. */
  function Parsed(region: Byte, bands: seq<Subband>, j: nat): seq<ChanPower>
    requires j <= |bands|
  {
    if j == 0 then []
    else if bands[j - 1].firstchan > LastChan(bands, j - 1)
    then Parsed(region, bands, j - 1) + Window(region, bands[j - 1], bands[j - 1].nrchan)
    else Parsed(region, bands, j - 1)
  }

  predicate StrictlyIncreasing(t: seq<ChanPower>) {
    forall i, j :: 0 <= i < j < |t| ==> t[i].chan < t[j].chan
  }

  lemma {:induction false} AcceptedAbove(bands: seq<Subband>, j: nat)
    requires j <= |bands|
    ensures forall i: nat :: i < j && Accepted(bands, i) && Reaches(bands[i]) ==> LastOf(bands[i]) <= LastChan(bands, j)
    ensures LastChan(bands, j) == 0
            || exists i: nat ::
                 i < j && Accepted(bands, i) && Reaches(bands[i]) && LastOf(bands[i]) == LastChan(bands, j)
  {
    if j == 0 {
    } else {
      AcceptedAbove(bands, j - 1);
      assert Accepted(bands, j - 1) <==> bands[j - 1].firstchan > LastChan(bands, j - 1);
    }
  }

  /** The running test of the parser decides acceptance. */
  lemma AcceptedExactly(bands: seq<Subband>, j: nat)
    requires j < |bands|
    ensures Accepted(bands, j) <==> bands[j].firstchan > LastChan(bands, j)
  {
    AcceptedAbove(bands, j);
  }

  lemma {:induction false} WindowHas(region: Byte, b: Subband, n: nat)
    ensures StrictlyIncreasing(Window(region, b, n))
    ensures forall c :: c in Window(region, b, n) <==>
              Supported(region, c.chan) && b.firstchan <= c.chan <= TOP_CHANNEL && c.chan < b.firstchan + n
                && c.pwr == b.maxtxpwr
  {
    hide Supported;
    if n == 0 {
    } else {
      WindowHas(region, b, n - 1);
      var was, now := Window(region, b, n - 1), Window(region, b, n);
      forall c ensures c in now <==> c in was || (c in now && c.chan == b.firstchan + n - 1) {
      }
    }
  }

  lemma WindowGrants(region: Byte, bands: seq<Subband>, j: nat, c: ChanPower)
    requires j < |bands|
    ensures Grants(region, bands, j, c) <==>
              bands[j].firstchan > LastChan(bands, j) && c in Window(region, bands[j], bands[j].nrchan)
  {
    hide Supported, Accepted;
    AcceptedExactly(bands, j);
    WindowHas(region, bands[j], bands[j].nrchan);
    SupportedInterval(region, c.chan);
  }

  lemma ParsedStepHas(region: Byte, bands: seq<Subband>, j: nat, c: ChanPower)
    requires j < |bands|
    ensures c in Parsed(region, bands, j + 1) <==> c in Parsed(region, bands, j) || Grants(region, bands, j, c)
  {
    hide Supported, Grants, Window, LastChan;
    WindowGrants(region, bands, j, c);
  }

  /** The channels of one more sub-band come after all others. */
  lemma ParsedStepOrder(region: Byte, bands: seq<Subband>, j: nat)
    requires j < |bands| && InOrderBelow(Parsed(region, bands, j), LastChan(bands, j))
    ensures InOrderBelow(Parsed(region, bands, j + 1), LastChan(bands, j + 1))
  {
    hide Supported, Window;
    var b := bands[j];
    var was, more := Parsed(region, bands, j), Window(region, b, b.nrchan);
    WindowHas(region, b, b.nrchan);
    forall i | 0 <= i < |was| ensures was[i].chan <= LastChan(bands, j) { assert was[i] in was; }
    forall i | 0 <= i < |more| ensures b.firstchan <= more[i].chan <= LastOf(b) { assert more[i] in more; }
  }

  predicate InOrderBelow(t: seq<ChanPower>, last: Byte) {
    StrictlyIncreasing(t) && forall c :: c in t ==> c.chan <= last
  }

  lemma ParsedNone(region: Byte, bands: seq<Subband>)
    ensures Parsed(region, bands, 0) == [] && LastChan(bands, 0) == 0
  {
  }

  lemma NoneInOrder()
    ensures InOrderBelow([], 0)
  {
  }

  lemma {:induction false} ParsedInOrder(region: Byte, bands: seq<Subband>, j: nat)
    requires j <= |bands|
    ensures InOrderBelow(Parsed(region, bands, j), LastChan(bands, j))
  {
    hide Parsed, LastChan, InOrderBelow;
    if j == 0 {
      ParsedNone(region, bands);
      NoneInOrder();
    } else {
      ParsedInOrder(region, bands, j - 1);
      ParsedStepOrder(region, bands, j - 1);
    }
  }

  /** One of the first j sub-bands grants c. */
  predicate GrantedBy(region: Byte, bands: seq<Subband>, j: nat, c: ChanPower) {
    exists i: nat :: i < j && Grants(region, bands, i, c)
  }

  lemma GrantedStep(region: Byte, bands: seq<Subband>, j: nat, c: ChanPower)
    requires j < |bands|
    ensures GrantedBy(region, bands, j + 1, c) <==> GrantedBy(region, bands, j, c) || Grants(region, bands, j, c)
  {
    hide Grants;
  }

  lemma GrantedByNone(region: Byte, bands: seq<Subband>, c: ChanPower)
    ensures !GrantedBy(region, bands, 0, c)
  {
  }

  lemma {:induction false} ParsedHas(region: Byte, bands: seq<Subband>, j: nat, c: ChanPower)
    requires j <= |bands|
    ensures c in Parsed(region, bands, j) <==> GrantedBy(region, bands, j, c)
  {
    hide Grants, GrantedBy, Parsed, LastChan;
    if j == 0 {
      ParsedNone(region, bands);
      assert !GrantedBy(region, bands, 0, c) by { GrantedByNone(region, bands, c); }
    } else {
      ParsedHas(region, bands, j - 1, c);
      ParsedStepHas(region, bands, j - 1, c);
      GrantedStep(region, bands, j - 1, c);
    }
  }

  lemma ParsedSupported(region: Byte, bands: seq<Subband>, j: nat, c: ChanPower)
    requires j <= |bands| && c in Parsed(region, bands, j)
    ensures Supported(region, c.chan)
  {
    hide Supported, Accepted, Parsed;
    ParsedHas(region, bands, j, c);
  }

  lemma {:induction false} AtLeastRank(t: seq<ChanPower>, i: nat)
    requires StrictlyIncreasing(t) && (forall c :: c in t ==> 1 <= c.chan) && i < |t|
    ensures t[i].chan >= i + 1
  {
    if i == 0 {
    } else {
      AtLeastRank(t, i - 1);
    }
  }

  /** A list of region channels has at most 14 entries. */
  lemma FewChannels(region: Byte, t: seq<ChanPower>)
    requires StrictlyIncreasing(t) && forall c :: c in t ==> Supported(region, c.chan)
    ensures |t| <= TOP_CHANNEL
  {
    if |t| > 0 {
      forall c | c in t ensures 1 <= c.chan <= TOP_CHANNEL { SupportedInterval(region, c.chan); }
      AtLeastRank(t, |t| - 1);
    }
  }

  /** For any sub-bands, overlapping, unordered or oversized: the output channels increase
      strictly, and they are exactly the supported channels of the accepted sub-bands,
      each with the power of its own sub-band; so 40 entries always suffice. */
  lemma ParsedExactly(region: Byte, bands: seq<Subband>)
    ensures var t := Parsed(region, bands, |bands|);
            && StrictlyIncreasing(t)
            && (forall c :: c in t <==> exists j: nat :: Grants(region, bands, j, c))
            && |t| <= TOP_CHANNEL
  {
    hide Parsed, Grants, Supported;
    ParsedInOrder(region, bands, |bands|);
    var t := Parsed(region, bands, |bands|);
    forall c ensures c in t <==> exists j: nat :: Grants(region, bands, j, c) {
      ParsedHas(region, bands, |bands|, c);
      GrantedInRange(region, bands, c);
    }
    forall c | c in t ensures Supported(region, c.chan) { ParsedSupported(region, bands, |bands|, c); }
    FewChannels(region, t);
  }

  lemma GrantedInRange(region: Byte, bands: seq<Subband>, c: ChanPower)
    ensures GrantedBy(region, bands, |bands|, c) <==> exists j: nat :: Grants(region, bands, j, c)
  {
    hide Accepted, Supported;
  }

  // ---------------------------------------------------------------- generating

  /** Channel i of t continues the run of channel i - 1. */
  predicate Joins(t: seq<ChanPower>, i: int)
    requires 0 < i < |t|
  {
    t[i].chan == t[i - 1].chan + 1 && t[i].pwr == t[i - 1].pwr
  }

  /** Where the maximal runs of t[..n] start. */
  function Starts(t: seq<ChanPower>, n: nat): (ks: seq<nat>)
    requires n <= |t|
    ensures |ks| <= n && (n > 0 ==> |ks| > 0 && ks[0] == 0)
    ensures forall k :: 0 <= k < |ks| ==> k <= ks[k] < n
    ensures forall j, k :: 0 <= j < k < |ks| ==> ks[j] < ks[k]
  {
    if n == 0 then [] else if n == 1 || !Joins(t, n - 1) then Starts(t, n - 1) + [n - 1] else Starts(t, n - 1)
  }

  /** Where run k of t ends. */
  function End(t: seq<ChanPower>, k: nat): (e: nat)
    requires k < |Starts(t, |t|)|
    ensures Starts(t, |t|)[k] < e <= |t|
  {
    var ks := Starts(t, |t|);
    if k + 1 < |ks| then ks[k + 1] else |t|
  }

  /** The sub-bands generate_domain_info_11d writes.  It does not reset nr_parsedchan between
      runs, so that the count of run k is the length of t up to its end, less k. */
  function Bands(t: seq<ChanPower>): (bands: seq<Subband>)
    requires |t| < 256
    ensures |bands| == |Starts(t, |t|)|
  {
    var ks := Starts(t, |t|);
    seq(|ks|, k requires 0 <= k < |ks| => Subband(t[ks[k]].chan, End(t, k) - k, t[ks[k]].pwr))
  }

  lemma {:induction false} StartsExactly(t: seq<ChanPower>, n: nat, i: nat)
    requires i < n <= |t|
    ensures i in Starts(t, n) <==> i == 0 || !Joins(t, i)
  {
    if i == n - 1 {
    } else {
      StartsExactly(t, n - 1, i);
    }
  }

  lemma NotBetween(t: seq<ChanPower>, k: nat, i: nat)
    requires k < |Starts(t, |t|)| && Starts(t, |t|)[k] < i < End(t, k)
    ensures Joins(t, i)
  {
    var ks := Starts(t, |t|);
    StartsExactly(t, |t|, i);
    assert forall m :: 0 <= m < |ks| ==> if m <= k then ks[m] <= ks[k] else ks[m] >= End(t, k);
  }

  /** Every run consists of consecutive channels of equal power, and cannot be extended. */
  lemma {:induction false} RunsAreMaximal(t: seq<ChanPower>, k: nat, i: nat)
    requires k < |Starts(t, |t|)| && Starts(t, |t|)[k] <= i < End(t, k)
    ensures var s := Starts(t, |t|)[k];
            && t[i].chan == t[s].chan + (i - s) && t[i].pwr == t[s].pwr
            && (s > 0 ==> !Joins(t, s))
            && (End(t, k) < |t| ==> !Joins(t, End(t, k)))
  {
    var ks := Starts(t, |t|);
    var s := ks[k];
    StartsExactly(t, |t|, s);
    if k + 1 < |ks| { assert ks[k + 1] in ks; StartsExactly(t, |t|, ks[k + 1]); }
    if i == s {
    } else {
      NotBetween(t, k, i);
      RunsAreMaximal(t, k, i - 1);
    }
  }

  /** How many channels run k has. */
  function RunLength(t: seq<ChanPower>, k: nat): nat
    requires k < |Starts(t, |t|)|
  {
    End(t, k) - Starts(t, |t|)[k]
  }

  lemma {:induction false} SingleRuns(t: seq<ChanPower>, k: nat)
    requires k < |Starts(t, |t|)|
    ensures Starts(t, |t|)[k] == k <==> forall j :: 0 <= j < k ==> RunLength(t, j) == 1
  {
    if k == 0 {
    } else {
      SingleRuns(t, k - 1);
      assert RunLength(t, k - 1) == Starts(t, |t|)[k] - Starts(t, |t|)[k - 1];
    }
  }

  lemma CountedLength(t: seq<ChanPower>, k: nat)
    requires |t| < 256 && k < |Bands(t)|
    ensures Bands(t)[k].nrchan == RunLength(t, k) <==> Starts(t, |t|)[k] == k
  {
  }

  /** The counts are the lengths of the runs exactly if every run but the last is one channel. */
  lemma ExactLengths(t: seq<ChanPower>)
    requires |t| < 256
    ensures (forall k :: 0 <= k < |Bands(t)| ==> Bands(t)[k].nrchan == RunLength(t, k))
            <==> (forall k :: 0 <= k < |Bands(t)| - 1 ==> RunLength(t, k) == 1)
  {
    hide RunLength, End;
    var n := |Bands(t)|;
    forall k | 0 <= k < n
      ensures Bands(t)[k].nrchan == RunLength(t, k) <==> forall j :: 0 <= j < k ==> RunLength(t, j) == 1
    {
      SingleRuns(t, k);
      CountedLength(t, k);
    }
    if forall k :: 0 <= k < n ==> Bands(t)[k].nrchan == RunLength(t, k) {
      if n > 0 { assert Bands(t)[n - 1].nrchan == RunLength(t, n - 1); }
    }
  }
}
