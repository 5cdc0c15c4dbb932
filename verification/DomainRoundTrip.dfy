/** When the sub-bands that the driver sends to the card stand for the channels they were
    written for. */
module DomainRoundTrip {
  import opened DomainSpec

  predicate RegionChannels(region: Byte, t: seq<ChanPower>) {
    StrictlyIncreasing(t) && forall i :: 0 <= i < |t| ==> Supported(region, t[i].chan)
  }

  function LastInRun(t: seq<ChanPower>, k: nat): ChanPower
    requires k < |Starts(t, |t|)|
  {
    t[End(t, k) - 1]
  }

  /** The count of run k is too large, and the region supports the channel that follows the run. */
  predicate Overruns(region: Byte, t: seq<ChanPower>, k: nat)
    requires k < |Starts(t, |t|)|
  {
    Starts(t, |t|)[k] > k && LastInRun(t, k).chan < TOP_CHANNEL && Supported(region, LastInRun(t, k).chan + 1)
  }

  lemma NoGap(region: Byte, a: Byte, c: Byte)
    requires Supported(region, a) && Supported(region, c) && a < c
    ensures a < TOP_CHANNEL && Supported(region, a + 1)
  {
    SupportedInterval(region, a);
    SupportedInterval(region, a + 1);
    SupportedInterval(region, c);
  }

  lemma {:induction false} WindowGrows(region: Byte, b: Subband, m: nat, n: nat)
    requires m <= n
    ensures Window(region, b, m) <= Window(region, b, n)
  {
    hide Supported;
    if m == n {
    } else {
      WindowGrows(region, b, m, n - 1);
    }
  }

  lemma {:induction false} ParsedGrows(region: Byte, bands: seq<Subband>, j: nat, n: nat)
    requires j <= n <= |bands|
    ensures Parsed(region, bands, j) <= Parsed(region, bands, n)
  {
    hide Window;
    if j == n {
    } else {
      ParsedGrows(region, bands, j, n - 1);
    }
  }

  lemma {:induction false} WindowOfSlice(region: Byte, t: seq<ChanPower>, b: Subband, s: nat, n: nat)
    requires RegionChannels(region, t) && s + n <= |t|
    requires forall i :: s <= i < s + n ==> t[i].chan == b.firstchan + (i - s) && t[i].pwr == b.maxtxpwr
    ensures Window(region, b, n) == t[s..s + n]
  {
    hide Supported;
    if n == 0 {
    } else {
      WindowOfSlice(region, t, b, s, n - 1);
      SupportedInterval(region, t[s + n - 1].chan);
      assert t[s..s + n] == t[s..s + n - 1] + [t[s + n - 1]];
    }
  }

  /** Run k and its sub-band. */
  lemma BandOfRun(t: seq<ChanPower>, k: nat)
    requires |t| <= MAX_NO_OF_CHAN && k < |Bands(t)|
    ensures var b, s, e := Bands(t)[k], Starts(t, |t|)[k], End(t, k);
            && b == Subband(t[s].chan, e - k, t[s].pwr)
            && k <= s < e <= |t|
            && (forall i :: s <= i < e ==> t[i].chan == b.firstchan + (i - s) && t[i].pwr == b.maxtxpwr)
            && (e < |t| ==> !Joins(t, e))
  {
    var s, e := Starts(t, |t|)[k], End(t, k);
    forall i | s <= i < e ensures t[i].chan == t[s].chan + (i - s) && t[i].pwr == t[s].pwr {
      RunsAreMaximal(t, k, i);
    }
    RunsAreMaximal(t, k, s);
  }

  lemma WindowOfRun(region: Byte, t: seq<ChanPower>, k: nat)
    requires |t| <= MAX_NO_OF_CHAN && RegionChannels(region, t) && k < |Bands(t)|
    ensures Window(region, Bands(t)[k], RunLength(t, k)) == t[Starts(t, |t|)[k]..End(t, k)]
  {
    hide RegionChannels, Bands, Starts, Window;
    BandOfRun(t, k);
    WindowOfSlice(region, t, Bands(t)[k], Starts(t, |t|)[k], RunLength(t, k));
  }

  lemma {:induction false} NothingBeyond(region: Byte, t: seq<ChanPower>, k: nat, n: nat)
    requires |t| <= MAX_NO_OF_CHAN && RegionChannels(region, t)
    requires k < |Bands(t)| && n >= RunLength(t, k)
    requires n == RunLength(t, k)
             || !(LastInRun(t, k).chan < TOP_CHANNEL && Supported(region, LastInRun(t, k).chan + 1))
    ensures Window(region, Bands(t)[k], n) == t[Starts(t, |t|)[k]..End(t, k)]
  {
    hide Supported, Bands, Starts;
    if n == RunLength(t, k) {
      WindowOfRun(region, t, k);
    } else {
      NothingBeyond(region, t, k, n - 1);
      var s, e := Starts(t, |t|)[k], End(t, k);
      BandOfRun(t, k);
      var c := t[s].chan + n - 1;
      if c <= TOP_CHANNEL && Supported(region, c) { NoGap(region, t[e - 1].chan, c); }
    }
  }

  function From(t: seq<ChanPower>, k: nat): (n: nat)
    requires k <= |Starts(t, |t|)|
    ensures n <= |t|
  {
    if k < |Starts(t, |t|)| then Starts(t, |t|)[k] else |t|
  }

  /** One well-behaved sub-band is read back as its run, and hides no later one. */
  lemma ReadOneRun(region: Byte, t: seq<ChanPower>, k: nat)
    requires |t| <= MAX_NO_OF_CHAN && RegionChannels(region, t)
    requires k < |Bands(t)| && !Overruns(region, t, k)
    requires Parsed(region, Bands(t), k) == t[..From(t, k)] && LastChan(Bands(t), k) < t[From(t, k)].chan
    ensures Parsed(region, Bands(t), k + 1) == t[..From(t, k + 1)]
    ensures k + 1 < |Bands(t)| ==> LastChan(Bands(t), k + 1) < t[From(t, k + 1)].chan
  {
    hide Supported, Joins, Bands, Starts, Parsed, LastChan, Window;
    var b, s, e := Bands(t)[k], Starts(t, |t|)[k], End(t, k);
    BandOfRun(t, k);
    NothingBeyond(region, t, k, b.nrchan);
    ParsedStep(region, Bands(t), k);
    assert t[..s] + t[s..e] == t[..e];
    if k + 1 < |Bands(t)| {
      assert t[e - 1].chan < t[e].chan;
      if s > k { NoGap(region, t[e - 1].chan, t[e].chan); }
    }
  }

  lemma ParsedStep(region: Byte, bands: seq<Subband>, k: nat)
    requires k < |bands| && LastChan(bands, k) < bands[k].firstchan
    ensures Parsed(region, bands, k + 1) == Parsed(region, bands, k) + Window(region, bands[k], bands[k].nrchan)
    ensures Reaches(bands[k]) ==> LastChan(bands, k + 1) == LastOf(bands[k])
    ensures !Reaches(bands[k]) ==> LastChan(bands, k + 1) == LastChan(bands, k)
  {
    hide Window;
  }

  lemma ReadsNothing(region: Byte, t: seq<ChanPower>)
    requires |t| <= MAX_NO_OF_CHAN && RegionChannels(region, t)
    ensures Parsed(region, Bands(t), 0) == t[..From(t, 0)]
    ensures 0 < |Bands(t)| ==> From(t, 0) < |t| && LastChan(Bands(t), 0) < t[From(t, 0)].chan
  {
    hide Supported, Window, Joins;
    if |t| > 0 { SupportedInterval(region, t[0].chan); }
  }

  lemma {:induction false} ReadsBack(region: Byte, t: seq<ChanPower>, k: nat)
    requires |t| <= MAX_NO_OF_CHAN && RegionChannels(region, t) && k <= |Bands(t)|
    requires forall j :: 0 <= j < k ==> !Overruns(region, t, j)
    ensures Parsed(region, Bands(t), k) == t[..From(t, k)]
    ensures k < |Bands(t)| ==> LastChan(Bands(t), k) < t[From(t, k)].chan
  {
    hide Parsed, LastChan, Bands, Starts, RegionChannels, Overruns;
    if k == 0 {
      ReadsNothing(region, t);
    } else {
      ReadsBack(region, t, k - 1);
      ReadOneRun(region, t, k - 1);
    }
  }

  /** The first sub-band that overruns adds a channel that t does not have at its place. */
  lemma OverrunShows(region: Byte, t: seq<ChanPower>, k: nat)
    requires |t| <= MAX_NO_OF_CHAN && RegionChannels(region, t)
    requires k < |Bands(t)| && Overruns(region, t, k)
    requires forall j :: 0 <= j < k ==> !Overruns(region, t, j)
    ensures Parsed(region, Bands(t), |Bands(t)|) != t
  {
    hide Supported, Overruns, Bands, Starts, RegionChannels, Parsed, LastChan, Window;
    var b, s, e := Bands(t)[k], Starts(t, |t|)[k], End(t, k);
    ReadsBack(region, t, k);
    BandOfRun(t, k);
    OverrunCount(region, t, k);
    ParsedStep(region, Bands(t), k);
    ParsedGrows(region, Bands(t), k + 1, |Bands(t)|);
    WindowGrows(region, b, e - s + 1, b.nrchan);
    var extra := ChanPower(t[e - 1].chan + 1, t[s].pwr);
    var run := t[s..e] + [extra];
    assert (t[..s] + Window(region, b, b.nrchan))[e] == Window(region, b, b.nrchan)[e - s] == run[e - s] == extra;
    assert Parsed(region, Bands(t), |Bands(t)|)[e] == extra;
    if e < |t| { assert t[e] != extra; }
  }

  lemma OverrunCount(region: Byte, t: seq<ChanPower>, k: nat)
    requires |t| <= MAX_NO_OF_CHAN && RegionChannels(region, t)
    requires k < |Bands(t)| && Overruns(region, t, k)
    ensures var b, s, e := Bands(t)[k], Starts(t, |t|)[k], End(t, k);
            && e - s + 1 <= b.nrchan
            && t[e - 1].chan < TOP_CHANNEL
            && Window(region, b, e - s + 1) == t[s..e] + [ChanPower(t[e - 1].chan + 1, t[s].pwr)]
  {
    hide Supported, Bands, Starts;
    WindowOfRun(region, t, k);
    BandOfRun(t, k);
  }

  /** Reading the generated sub-bands in the same region gives the list back exactly if no
      run that follows a run of several channels stops below the region's last channel. */
  lemma RoundTrip(region: Byte, t: seq<ChanPower>)
    requires |t| <= MAX_NO_OF_CHAN && RegionChannels(region, t)
    ensures Parsed(region, Bands(t), |Bands(t)|) == t <==> forall k :: 0 <= k < |Bands(t)| ==> !Overruns(region, t, k)
  {
    hide Overruns, RegionChannels;
    if forall k :: 0 <= k < |Bands(t)| ==> !Overruns(region, t, k) {
      ReadsBack(region, t, |Bands(t)|);
      assert t[..|t|] == t;
    } else {
      var k := FirstOverrun(region, t, |Bands(t)|);
      OverrunShows(region, t, k);
    }
  }

  lemma {:induction false} FirstOverrun(region: Byte, t: seq<ChanPower>, n: nat) returns (k: nat)
    requires |t| <= MAX_NO_OF_CHAN && n <= |Bands(t)| && exists j :: 0 <= j < n && Overruns(region, t, j)
    ensures k < n && Overruns(region, t, k) && forall j :: 0 <= j < k ==> !Overruns(region, t, j)
  {
    hide Overruns;
    if exists j :: 0 <= j < n - 1 && Overruns(region, t, j) {
      k := FirstOverrun(region, t, n - 1);
    } else {
      k := n - 1;
    }
  }

  /** What the driver learned from any country element is such a list: the theorem applies
      to the domain that lbs_parse_dnld_countryinfo_11d writes for the card. */
  lemma LearnedRoundTrip(region: Byte, bands: seq<Subband>)
    ensures var t := Parsed(region, bands, |bands|);
            && |t| <= MAX_NO_OF_CHAN && RegionChannels(region, t)
            && (Parsed(region, Bands(t), |Bands(t)|) == t
               <==> forall k :: 0 <= k < |Bands(t)| ==> !Overruns(region, t, k))
  {
    hide Supported, Overruns;
    ParsedExactly(region, bands);
    var t := Parsed(region, bands, |bands|);
    forall i | 0 <= i < |t| ensures Supported(region, t[i].chan) { assert t[i] in t; }
    RoundTrip(region, t);
  }

  lemma {:induction false} OneRun(t: seq<ChanPower>, n: nat)
    requires 0 < n <= |t| && forall i :: 0 < i < n ==> Joins(t, i)
    ensures Starts(t, n) == [0]
  {
    if n == 1 {
    } else {
      OneRun(t, n - 1);
    }
  }

  /** The full table of a region is one sub-band, and is always read back. */
  lemma RegionTableRoundTrip(region: Byte)
    requires RegionTable(region) != []
    ensures var t := RegionTable(region);
            && |t| <= MAX_NO_OF_CHAN
            && Bands(t) == [Subband(t[0].chan, |t|, t[0].pwr)]
            && Parsed(region, Bands(t), 1) == t
  {
    hide RegionTable, RegionChannels, Parsed;
    var t := RegionTable(region);
    TableIsOneRun(region);
    OneRun(t, |t|);
    RoundTrip(region, t);
  }

  lemma TableIsOneRun(region: Byte)
    ensures RegionChannels(region, RegionTable(region))
    ensures forall i :: 0 < i < |RegionTable(region)| ==> Joins(RegionTable(region), i)
  {
    var t := RegionTable(region);
    forall i | 0 <= i < |t| ensures Supported(region, t[i].chan) {
    }
  }

  /** Two runs are enough to lose the round trip: the second one grows by a channel. */
  lemma RoundTripFails()
    ensures var t := [ChanPower(1, 20), ChanPower(2, 20), ChanPower(3, 10)];
            && Bands(t) == [Subband(1, 2, 20), Subband(3, 2, 10)]
            && Parsed(0x10, Bands(t), 2) == t + [ChanPower(4, 10)]
  {
    hide Starts, Parsed;
    var t := [ChanPower(1, 20), ChanPower(2, 20), ChanPower(3, 10)];
    TwoRuns(t);
    assert Bands(t) == [Subband(1, 2, 20), Subband(3, 2, 10)];
    FourChannels(t);
  }

  lemma TwoRuns(t: seq<ChanPower>)
    requires |t| == 3 && Joins(t, 1) && !Joins(t, 2)
    ensures Starts(t, 3) == [0, 2]
  {
    assert Starts(t, 0) == [];
    assert Starts(t, 1) == [0];
    assert Starts(t, 2) == [0];
  }

  lemma FourChannels(t: seq<ChanPower>)
    requires t == [ChanPower(1, 20), ChanPower(2, 20), ChanPower(3, 10)]
    ensures Parsed(0x10, [Subband(1, 2, 20), Subband(3, 2, 10)], 2) == t + [ChanPower(4, 10)]
  {
    var a, b := Subband(1, 2, 20), Subband(3, 2, 10);
    SupportedInterval(0x10, 1);
    SupportedInterval(0x10, 2);
    SupportedInterval(0x10, 3);
    SupportedInterval(0x10, 4);
    hide Supported;
    assert Window(0x10, a, 1) == [t[0]] && Window(0x10, a, 2) == [t[0], t[1]];
    assert Window(0x10, b, 1) == [t[2]] && Window(0x10, b, 2) == [t[2], ChanPower(4, 10)];
    assert Parsed(0x10, [a, b], 0) == [] && Parsed(0x10, [a, b], 1) == [t[0], t[1]];
    assert LastChan([a, b], 0) == 0 && LastChan([a, b], 1) == 2;
  }
}
