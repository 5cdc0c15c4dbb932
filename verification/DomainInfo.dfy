/** 11d.c: the loops that parse a country element, write the domain for the card, and copy
    a region table. */
module DomainInfo {
  import opened DomainSpec
  import opened DomainRoundTrip

  // ---------------------------------------------------------------- country codes

  /** region_code_mapping. */
  const MAPPING: seq<(string, Byte)> := [
    ("US ", 0x10), ("CA ", 0x10), ("SG ", 0x10), ("EU ", 0x30), ("AU ", 0x30), ("KR ", 0x30),
    ("ES ", 0x31), ("FR ", 0x32), ("JP ", 0x40)]

  /** The lower-case letters of the kernel's character table, which is that of ISO 8859-1. */
  predicate IsLower(c: char) {
    'a' <= c <= 'z' || 0xdf <= c as int <= 0xf6 || 0xf8 <= c as int <= 0xff
  }

  /** The kernel's toupper subtracts 32 from any of them. */
  function ToUpper(c: char): char {
    if IsLower(c) then (c as int - 32) as char else c
  }

  /** The letters up to the first zero byte in upper case. */
  function Upper(code: string): (u: string)
    ensures |u| == |code|
  {
    if code == "" || code[0] == '\0' then code else [ToUpper(code[0])] + Upper(code[1..])
  }

  /** The code of the first entry that has this name, from entry i on; the default is US. */
  function CodeOf(name: string, i: nat): Byte
    requires i <= |MAPPING|
    decreases |MAPPING| - i
  {
    if i == |MAPPING| then MAPPING[0].1 else if MAPPING[i].0 == name then MAPPING[i].1 else CodeOf(name, i + 1)
  }

  function NameOf(code: Byte, i: nat): string
    requires i <= |MAPPING|
    decreases |MAPPING| - i
  {
    if i == |MAPPING| then MAPPING[0].0 else if MAPPING[i].1 == code then MAPPING[i].0 else NameOf(code, i + 1)
  }

  lemma {:induction false} CodeOfName(code: Byte, i: nat)
    requires i <= |MAPPING|
    ensures NameOf(code, i) == Upper(NameOf(code, i)) && |NameOf(code, i)| == COUNTRY_CODE_LEN
    ensures (exists j :: i <= j < |MAPPING| && MAPPING[j].1 == code) ==> CodeOf(NameOf(code, i), 0) == code
    ensures !(exists j :: i <= j < |MAPPING| && MAPPING[j].1 == code) ==> CodeOf(NameOf(code, i), 0) == 0x10
    decreases |MAPPING| - i
  {
    if i < |MAPPING| && MAPPING[i].1 != code {
      CodeOfName(code, i + 1);
    } else {
      NameIsListed(if i == |MAPPING| then 0 else i);
    }
  }

  lemma NameIsListed(i: nat)
    requires i < |MAPPING|
    ensures Upper(MAPPING[i].0) == MAPPING[i].0 && |MAPPING[i].0| == COUNTRY_CODE_LEN
    ensures CodeOf(MAPPING[i].0, 0) == MAPPING[i].1
  {
    var name := MAPPING[i].0;
    assert Upper(name[2..]) == name[2..] && Upper(name[1..]) == name[1..];
    NotBefore(i, 0);
  }

  lemma {:induction false} NotBefore(i: nat, j: nat)
    requires j <= i < |MAPPING|
    ensures CodeOf(MAPPING[i].0, j) == MAPPING[i].1
    decreases i - j
  {
    if j == i {
    } else {
      assert MAPPING[i].0[0] != MAPPING[j].0[0] || MAPPING[i].0[1] != MAPPING[j].0[1];
      NotBefore(i, j + 1);
    }
  }

  /** The country code written for a region leads back to it, except that Canada's own code
      0x20 leads to the US code; the channels are the same in every case. */
  lemma RegionSurvives(region: Byte)
    requires RegionTable(region) != []
    ensures CodeOf(Upper(NameOf(region, 0)), 0) == (if region == 0x20 then 0x10 else region)
    ensures RegionTable(CodeOf(Upper(NameOf(region, 0)), 0)) == RegionTable(region)
  {
    CodeOfName(region, 0);
    assert MAPPING[0].1 == 0x10 && MAPPING[3].1 == 0x30 && MAPPING[6].1 == 0x31 && MAPPING[7].1 == 0x32
           && MAPPING[8].1 == 0x40;
  }

  /** c is the letter d, or d in lower case. */
  predicate SameLetter(c: char, d: char) {
    c == d || ('A' <= d <= 'Z' && c as int == d as int + 32)
  }

  predicate Capital(c: char) {
    'A' <= c <= 'Z' || c == ' '
  }

  lemma {:induction false} UpperOfSame(code: string, name: string)
    requires |code| == |name| && forall k :: 0 <= k < |code| ==> Capital(name[k]) && SameLetter(code[k], name[k])
    ensures Upper(code) == name
  {
    if code == "" {
    } else {
      assert Capital(name[0]) && SameLetter(code[0], name[0]);
      UpperOfSame(code[1..], name[1..]);
    }
  }

  lemma NamesAreCapital(i: nat)
    requires i < |MAPPING|
    ensures forall k :: 0 <= k < |MAPPING[i].0| ==> Capital(MAPPING[i].0[k])
  {
  }

  /** The case of a country code does not matter. */
  lemma CaseDoesNotMatter(code: string, i: nat)
    requires i < |MAPPING| && |code| == |MAPPING[i].0|
    requires forall k :: 0 <= k < |code| ==> SameLetter(code[k], MAPPING[i].0[k])
    ensures CodeOf(Upper(code), 0) == MAPPING[i].1
  {
    hide Upper, CodeOf, SameLetter;
    NamesAreCapital(i);
    UpperOfSame(code, MAPPING[i].0);
    NameIsListed(i);
  }

  /** An unknown code is taken for that of the US. */
  lemma {:induction false} UnknownIsUs(code: string, i: nat)
    requires i <= |MAPPING| && forall j :: i <= j < |MAPPING| ==> MAPPING[j].0 != code
    ensures CodeOf(code, i) == 0x10
    decreases |MAPPING| - i
  {
    if i == |MAPPING| {
    } else {
      UnknownIsUs(code, i + 1);
    }
  }

  /** The name written for a code is that of its first entry, and that of the US without one. */
  lemma {:induction false} FirstName(code: Byte, i: nat, k: nat)
    requires i <= k <= |MAPPING| && forall j :: i <= j < k ==> MAPPING[j].1 != code
    requires k < |MAPPING| ==> MAPPING[k].1 == code
    ensures NameOf(code, i) == if k == |MAPPING| then "US " else MAPPING[k].0
    decreases k - i
  {
    if i == k {
    } else {
      FirstName(code, i + 1, k);
    }
  }

  /** Every letter of ISO 8859-1 before the first zero byte is put in upper case, and nothing else. */
  lemma {:induction false} UpperExactly(code: string, k: nat)
    requires k < |code|
    ensures var c := code[k];
            var lower := 'a' <= c <= 'z' || (0xdf <= c as int <= 0xff && c as int != 0xf7);
            Upper(code)[k] == if lower && '\0' !in code[..k] then (c as int - 32) as char else c
  {
    if code[0] == '\0' || k == 0 {
    } else {
      UpperExactly(code[1..], k - 1);
      assert code[..k] == [code[0]] + code[1..][..k - 1];
    }
  }

  lemma UpperStep(rest: string, c: char, tail: string)
    requires rest == [c] + tail && c != '\0'
    ensures Upper(rest) == [ToUpper(c)] + Upper(tail)
  {
    assert rest[1..] == tail;
  }

  /** The first loop of lbs_region_2_code. */
  method UpperInPlace(region: array<char>)
    requires region.Length == COUNTRY_CODE_LEN
    modifies region
    ensures region[..] == Upper(old(region[..]))
  {
    hide Upper, ToUpper;
    ghost var was := region[..];
    var i := 0;
    while i < COUNTRY_CODE_LEN && region[i] != '\0'
      invariant 0 <= i <= COUNTRY_CODE_LEN
      invariant forall k :: i <= k < COUNTRY_CODE_LEN ==> region[k] == was[k]
      invariant region[..i] + Upper(was[i..]) == Upper(was)
    {
      UpperStep(was[i..], was[i], was[i + 1..]);
      region[i] := ToUpper(region[i]);
      i := i + 1;
    }
    assert region[i..] == was[i..] && region[..] == region[..i] + region[i..];
    UpperStops(was[i..]);
  }

  lemma UpperStops(rest: string)
    requires rest == "" || rest[0] == '\0'
    ensures Upper(rest) == rest
  {
  }

  /** lbs_region_2_code: it also changes the country code in place. */
  method LbsRegion2Code(region: array<char>) returns (code: Byte)
    requires region.Length == COUNTRY_CODE_LEN
    modifies region
    ensures region[..] == Upper(old(region[..]))
    ensures code == CodeOf(region[..], 0)
  {
    UpperInPlace(region);
    var i := 0;
    while i < |MAPPING|
      invariant 0 <= i <= |MAPPING|
      invariant CodeOf(region[..], 0) == CodeOf(region[..], i)
    {
      if region[..] == MAPPING[i].0 { return MAPPING[i].1; }
      i := i + 1;
    }
    return MAPPING[0].1;
  }

  // ---------------------------------------------------------------- struct parsed_region_chan_11d

  class ParsedRegionChan {
    var band: Byte
    var region: Byte
    var countrycode: string
    const chanpwr: array<ChanPower>
    var nrChan: Byte

    constructor ()
      ensures fresh(chanpwr) && chanpwr.Length == MAX_NO_OF_CHAN && nrChan == 0
    {
      band, region, countrycode, nrChan := 0, 0, "\0\0\0", 0;
      chanpwr := new ChanPower[MAX_NO_OF_CHAN](_ => ChanPower(0, 0));
    }
  }

  /** lbs_get_chan_11d: the nrchan-th channel after firstchan in the table of channels 1 to 14. */
  function GetChan(firstchan: Byte, nrchan: Byte): (c: int)
    ensures c > 0 ==> c <= TOP_CHANNEL
  {
    if 1 <= firstchan <= TOP_CHANNEL && firstchan - 1 + nrchan < TOP_CHANNEL then firstchan + nrchan else 0
  }

  lemma {:induction false} WindowEnds(region: Byte, b: Subband, m: nat, n: nat)
    requires m <= n && b.firstchan + m > TOP_CHANNEL
    ensures Window(region, b, n) == Window(region, b, m)
  {
    hide Supported;
    if m == n {
    } else {
      WindowEnds(region, b, m, n - 1);
    }
  }

  lemma {:induction false} ParsedFew(region: Byte, bands: seq<Subband>, j: nat)
    requires j <= |bands|
    ensures |Parsed(region, bands, j)| <= TOP_CHANNEL
  {
    hide Supported, Parsed;
    ParsedInOrder(region, bands, j);
    forall c | c in Parsed(region, bands, j) ensures Supported(region, c.chan) { ParsedSupported(region, bands, j, c); }
    FewChannels(region, Parsed(region, bands, j));
  }

  lemma WindowNone(region: Byte, b: Subband)
    ensures Window(region, b, 0) == []
  {
  }

  lemma WindowStep(region: Byte, b: Subband, n: nat)
    requires b.firstchan + n <= TOP_CHANNEL
    ensures Window(region, b, n + 1)
            == Window(region, b, n) + (if Supported(region, b.firstchan + n)
               then [ChanPower(b.firstchan + n, b.maxtxpwr)] else [])
  {
    hide Supported;
  }

  /** The inner loop of parse_domain_info_11d, for one sub-band that is not skipped.  Its
      test against MAX_NO_OF_CHAN never ends it. */
  method ParseSubband(region: Byte, b: Subband, chanpwr: array<ChanPower>, at: Byte, last: Byte)
    returns (idx: Byte, lastchan: Byte)
    requires chanpwr.Length == MAX_NO_OF_CHAN && at + |Window(region, b, b.nrchan)| <= TOP_CHANNEL && b.firstchan > last
    modifies chanpwr
    ensures idx == at + |Window(region, b, b.nrchan)|
    ensures chanpwr[..] == old(chanpwr[..at]) + Window(region, b, b.nrchan) + old(chanpwr[idx..])
    ensures lastchan == if Reaches(b) then LastOf(b) else last
  {
    hide Supported, Window;
    idx, lastchan := at, last;
    WindowNone(region, b);
    var i: Byte := 0;
    while idx < MAX_NO_OF_CHAN && i < b.nrchan
      invariant i <= b.nrchan && (i > 0 ==> b.firstchan + i - 1 <= TOP_CHANNEL)
      invariant idx == at + |Window(region, b, i)| <= TOP_CHANNEL
      invariant chanpwr[..idx] == old(chanpwr[..at]) + Window(region, b, i)
      invariant forall k :: idx <= k < MAX_NO_OF_CHAN ==> chanpwr[k] == old(chanpwr[k])
      invariant lastchan == if i > 0 then b.firstchan + i - 1 else last
    {
      WindowGrows(region, b, i + 1, b.nrchan);
      var curchan := GetChan(b.firstchan, i);
      if curchan == 0 {
        WindowEnds(region, b, i, b.nrchan);
        break;
      }
      lastchan := curchan;
      WindowStep(region, b, i);
      if Supported(region, curchan) {
        chanpwr[idx] := ChanPower(curchan, b.maxtxpwr);
        idx := idx + 1;
      }
      i := i + 1;
    }
  }

  lemma ParsedSkip(region: Byte, bands: seq<Subband>, k: nat)
    requires k < |bands| && bands[k].firstchan <= LastChan(bands, k)
    ensures Parsed(region, bands, k + 1) == Parsed(region, bands, k)
    ensures LastChan(bands, k + 1) == LastChan(bands, k)
  {
  }

  /** The outer loop of parse_domain_info_11d. */
  method ParseSubbands(region: Byte, bands: seq<Subband>, chanpwr: array<ChanPower>) returns (idx: Byte)
    requires chanpwr.Length == MAX_NO_OF_CHAN
    modifies chanpwr
    ensures idx == |Parsed(region, bands, |bands|)| <= TOP_CHANNEL
    ensures chanpwr[..] == Parsed(region, bands, |bands|) + old(chanpwr[..])[idx..]
  {
    hide Supported, Parsed, LastChan, Window;
    ParsedNone(region, bands);
    var lastchan: Byte, j := 0, 0;
    idx := 0;
    while j < |bands|
      invariant 0 <= j <= |bands| && lastchan == LastChan(bands, j)
      invariant idx == |Parsed(region, bands, j)| <= TOP_CHANNEL
      invariant chanpwr[..idx] == Parsed(region, bands, j)
      invariant forall k :: idx <= k < MAX_NO_OF_CHAN ==> chanpwr[k] == old(chanpwr[k])
    {
      ParsedFew(region, bands, j + 1);
      if bands[j].firstchan <= lastchan {
        ParsedSkip(region, bands, j);
      } else {
        ParsedStep(region, bands, j);
        idx, lastchan := ParseSubband(region, bands[j], chanpwr, idx, lastchan);
      }
      j := j + 1;
    }
  }

  /** parse_domain_info_11d. */
  method ParseDomainInfo(countrycode: array<char>, len: Byte, subband: seq<Subband>, band: Byte, out: ParsedRegionChan)
    requires countrycode.Length == COUNTRY_CODE_LEN && countrycode != out.chanpwr as object
    requires out.chanpwr.Length == MAX_NO_OF_CHAN
    requires (len - COUNTRY_CODE_LEN) / 3 <= |subband|
    modifies countrycode, out, out.chanpwr
    ensures old(countrycode[0]) == '\0' || len <= COUNTRY_CODE_LEN ==>
              unchanged(countrycode) && unchanged(out) && unchanged(out.chanpwr)
    ensures old(countrycode[0]) != '\0' && len > COUNTRY_CODE_LEN ==>
              var n := (len - COUNTRY_CODE_LEN) / 3;
              && countrycode[..] == Upper(old(countrycode[..])) == out.countrycode
              && out.region == CodeOf(out.countrycode, 0) && out.band == band
              && out.nrChan == |Parsed(out.region, subband[..n], n)| <= TOP_CHANNEL
              && out.chanpwr[..] == Parsed(out.region, subband[..n], n) + old(out.chanpwr[..])[out.nrChan..]
  {
    hide Upper, CodeOf, Parsed;
    if countrycode[0] == '\0' || len <= COUNTRY_CODE_LEN { return; }
    var region := LbsRegion2Code(countrycode);
    out.region, out.band, out.countrycode := region, band, countrycode[..];
    var nrSubband := (len - COUNTRY_CODE_LEN) / 3;
    var idx := ParseSubbands(region, subband[..nrSubband], out.chanpwr);
    out.nrChan := idx;
  }

  // ---------------------------------------------------------------- struct lbs_802_11d_domain_reg

  class DomainReg {
    var countrycode: string
    var nrSubband: Byte
    const subband: array<Subband>

    constructor ()
      ensures fresh(subband) && subband.Length == MAX_SUBBAND && nrSubband == 0
    {
      countrycode, nrSubband := "\0\0\0", 0;
      subband := new Subband[MAX_SUBBAND](_ => Subband(0, 0, 0));
    }
  }

  /** The sub-bands written before the loop of generate_domain_info_11d has seen the end of
      the run that is open after n channels. */
  function Closed(t: seq<ChanPower>, n: nat): (bands: seq<Subband>)
    requires 0 < n <= |t| < 256
    ensures |bands| == |Starts(t, n)| - 1
  {
    var ks := Starts(t, n);
    seq(|ks| - 1, k requires 0 <= k < |ks| - 1 => Subband(t[ks[k]].chan, ks[k + 1] - k, t[ks[k]].pwr))
  }

  /** The local variables of that loop after n channels: nrSubband runs are written, and
      the open one began at firstchan. */
  predicate Counting(t: seq<ChanPower>, n: nat, nrSubband: Byte, nrParsedchan: Byte, firstchan: Byte, nextchan: Byte,
    maxpwr: Byte)
    requires 0 < n <= |t| < 256
  {
    var ks := Starts(t, n);
    var s := ks[|ks| - 1];
    && nrSubband == |ks| - 1 && nrParsedchan == n - nrSubband
    && firstchan == t[s].chan && nextchan == t[n - 1].chan && maxpwr == t[s].pwr == t[n - 1].pwr
  }

  lemma OpenFirst(t: seq<ChanPower>)
    requires 0 < |t| < 256
    ensures Counting(t, 1, 0, 1, t[0].chan, t[0].chan, t[0].pwr) && Closed(t, 1) == []
  {
    assert Starts(t, 1) == [0];
  }

  lemma JoinRun(t: seq<ChanPower>, n: nat, k: Byte, parsed: Byte, first: Byte, next: Byte, pwr: Byte)
    requires 0 < n < |t| < 255 && Counting(t, n, k, parsed, first, next, pwr) && Joins(t, n)
    ensures Counting(t, n + 1, k, parsed + 1, first, t[n].chan, pwr) && Closed(t, n + 1) == Closed(t, n)
  {
    assert Starts(t, n + 1) == Starts(t, n);
  }

  lemma CloseRun(t: seq<ChanPower>, n: nat, k: Byte, parsed: Byte, first: Byte, next: Byte, pwr: Byte)
    requires 0 < n < |t| < 255 && Counting(t, n, k, parsed, first, next, pwr) && !Joins(t, n)
    ensures Counting(t, n + 1, k + 1, parsed, t[n].chan, t[n].chan, t[n].pwr)
    ensures Closed(t, n + 1) == Closed(t, n) + [Subband(first, parsed, pwr)]
  {
    var ks := Starts(t, n);
    assert Starts(t, n + 1) == ks + [n];
  }

  lemma CloseLast(t: seq<ChanPower>, k: Byte, parsed: Byte, first: Byte, next: Byte, pwr: Byte)
    requires 0 < |t| < 255 && Counting(t, |t|, k, parsed, first, next, pwr)
    ensures Bands(t) == Closed(t, |t|) + [Subband(first, parsed, pwr)]
  {
  }

  /** generate_domain_info_11d. */
  method GenerateDomainInfo(parsed: ParsedRegionChan, out: DomainReg)
    requires parsed.chanpwr.Length == MAX_NO_OF_CHAN && parsed.nrChan <= MAX_NO_OF_CHAN
    requires out.subband.Length == MAX_SUBBAND
    modifies out, out.subband
    ensures out.countrycode == parsed.countrycode
    ensures out.nrSubband == |Bands(parsed.chanpwr[..parsed.nrChan])| <= parsed.nrChan
    ensures out.subband[..] == Bands(parsed.chanpwr[..parsed.nrChan]) + old(out.subband[..])[out.nrSubband..]
  {
    hide Closed, Starts, Counting, Bands;
    ghost var t := parsed.chanpwr[..parsed.nrChan];
    ghost var was := out.subband[..];
    out.countrycode := parsed.countrycode;
    var nrSubband: Byte, nrParsedchan: Byte, firstchan: Byte, nextchan: Byte, maxpwr: Byte := 0, 0, 0, 0, 0;
    var flag, i := false, 0;
    while i < parsed.nrChan
      invariant 0 <= i <= |t| && flag == (i > 0)
      invariant unchanged(parsed) && unchanged(parsed.chanpwr) && out.countrycode == parsed.countrycode
      invariant i == 0 ==> nrSubband == 0 && out.subband[..] == was
      invariant i > 0 ==> Counting(t, i, nrSubband, nrParsedchan, firstchan, nextchan, maxpwr)
      invariant i > 0 ==> nrSubband + nrParsedchan == i && nextchan == t[i - 1].chan && maxpwr == t[i - 1].pwr
      invariant i > 0 ==> nrSubband == |Closed(t, i)| && out.subband[..] == Closed(t, i) + was[nrSubband..]
    {
      var c := parsed.chanpwr[i];
      if !flag {
        OpenFirst(t);
        flag := true;
        nextchan, firstchan, maxpwr, nrParsedchan := c.chan, c.chan, c.pwr, 1;
      } else if c.chan == nextchan + 1 && c.pwr == maxpwr {
        JoinRun(t, i, nrSubband, nrParsedchan, firstchan, nextchan, maxpwr);
        nextchan := nextchan + 1;
        nrParsedchan := nrParsedchan + 1;
      } else {
        CloseRun(t, i, nrSubband, nrParsedchan, firstchan, nextchan, maxpwr);
        out.subband[nrSubband] := Subband(firstchan, nrParsedchan, maxpwr);
        nrSubband := nrSubband + 1;
        nextchan, firstchan, maxpwr := c.chan, c.chan, c.pwr;
      }
      i := i + 1;
    }
    if flag {
      CloseLast(t, nrSubband, nrParsedchan, firstchan, nextchan, maxpwr);
      out.subband[nrSubband] := Subband(firstchan, nrParsedchan, maxpwr);
      nrSubband := nrSubband + 1;
    } else {
      NoBands(t);
    }
    out.nrSubband := nrSubband;
  }

  lemma NoBands(t: seq<ChanPower>)
    requires t == []
    ensures Bands(t) == []
  {
  }

  /** lbs_generate_parsed_region_chan_11d: without a table for the region it changes nothing. */
  method GenerateParsedRegionChan(region: Byte, band: Byte, out: ParsedRegionChan)
    requires out.chanpwr.Length == MAX_NO_OF_CHAN
    modifies out, out.chanpwr
    ensures RegionTable(region) == [] ==> unchanged(out) && unchanged(out.chanpwr)
    ensures RegionTable(region) != [] ==>
              && out.band == band && out.region == region && out.countrycode == NameOf(region, 0)
              && out.nrChan == |RegionTable(region)|
              && out.chanpwr[..] == RegionTable(region) + old(out.chanpwr[..])[out.nrChan..]
  {
    hide RegionTable, NameOf;
    ghost var was := out.chanpwr[..];
    var cfp := RegionTable(region);
    if cfp == [] { return; }
    out.band, out.region, out.countrycode := band, region, NameOf(region, 0);
    var i := 0;
    while i < |cfp|
      invariant 0 <= i <= |cfp|
      invariant forall k :: 0 <= k < i ==> out.chanpwr[k] == cfp[k]
      invariant forall k :: i <= k < MAX_NO_OF_CHAN ==> out.chanpwr[k] == was[k]
      invariant out.band == band && out.region == region && out.countrycode == NameOf(region, 0)
    {
      out.chanpwr[i] := cfp[i];
      i := i + 1;
    }
    out.nrChan := |cfp|;
  }
}
