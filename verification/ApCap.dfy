/** The MCS 6 cap of an access point: for which peers it fails, exactly, and that it fails for
    every peer that the driver itself describes. */
module ApCap {
  import opened RateGroups
  import opened HtState
  import opened SampleTable
  import opened Signal
  import opened Runs
  import opened PeerCap
  import opened ApSampling
  import opened ApFive
  import opened ApSeven
  import opened ApSix
  import opened ApWide

  lemma SampleTableOf(column: seq<nat>, where: seq<nat>) returns (columns: seq<seq<nat>>)
    requires |column| == |where| == 10
    requires forall v :: 0 <= v < 10 ==> where[v] < 10 && column[where[v]] == v
    requires forall i :: 0 <= i < 10 ==> column[i] < 10 && where[column[i]] == i
    ensures IsSampleTable(columns) && columns[0] == column
  {
    forall v | 0 <= v < 10
      ensures v in column
    {
      assert column[where[v]] == v;
    }
    assert IsPermutation(column, 10);
    columns := seq(10, c => column);
  }

  lemma ClimbTable() returns (columns: seq<seq<nat>>)
    ensures IsSampleTable(columns) && columns[0] == CLIMB
  {
    columns := SampleTableOf(CLIMB, [3, 4, 5, 6, 7, 8, 9, 2, 0, 1]);
  }

  /** On a platform with offset `offset`, some run of an access point from start-up, on links as
      wide as the peer's channel, hands this peer a rate above the cap. */
  ghost predicate ApExceeds(c: Caps, offset: int, table: seq<Entry>)
    requires PeerOk(c, offset, table)
  {
    exists l: Link, columns: seq<seq<nat>> ::
      && LinkIn(l, EnvOf(c, offset)) && StartOk(c, l, table) && IsSampleTable(columns)
      && CanExceed(Start(c, l, table), columns, EnvOf(c, offset))
  }

  lemma Exceeds(c: Caps, offset: int, table: seq<Entry>, m: nat, columns: seq<seq<nat>>)
    requires PeerOk(c, offset, table) && IsSampleTable(columns)
    requires var l, env := ApLink(EnvOf(c, offset), m), EnvOf(c, offset);
             StartOk(c, l, table) && CanExceed(Start(c, l, table), columns, env)
    ensures ApExceeds(c, offset, table)
  {
    hide CanExceed, Start, StartOk;
    assert LinkIn(ApLink(EnvOf(c, offset), m), EnvOf(c, offset));
  }

  lemma HighPairExceeds(c: Caps, offset: int, table: seq<Entry>)
    requires PeerOk(c, offset, table) && (c.vht || (6 in c.htRates && 7 in c.htRates))
    ensures ApExceeds(c, offset, table)
  {
    hide CanExceed, Start, StartOk, ApExceeds, ApLink, IsSampleTable;
    var columns := ClimbTable();
    if c.vht || c.bandwidth <= BW_40 {
      SixSeven(c, offset, table, columns);
    } else {
      WideSixSeven(c, offset, table, columns);
    }
    Exceeds(c, offset, table, 6, columns);
  }

  lemma FiveSixExceeds(c: Caps, offset: int, table: seq<Entry>)
    requires PeerOk(c, offset, table) && !c.vht && 5 in c.htRates && 6 in c.htRates && !CckCatches(c)
    ensures ApExceeds(c, offset, table)
  {
    hide CanExceed, Start, StartOk, ApExceeds, ApLink, IsSampleTable;
    var columns := SampleTableOf(FALL, [4, 5, 6, 7, 8, 1, 2, 9, 0, 3]);
    SixFalls(c, offset, table, columns);
    Exceeds(c, offset, table, 0, columns);
  }

  lemma FiveSevenExceeds(c: Caps, offset: int, table: seq<Entry>)
    requires PeerOk(c, offset, table) && !c.vht && 5 in c.htRates && 7 in c.htRates && 6 !in c.htRates && FiveInReach(c)
    ensures ApExceeds(c, offset, table)
  {
    hide CanExceed, Start, StartOk, ApExceeds, ApLink, IsSampleTable;
    if 3 in c.htRates || 4 in c.htRates {
      var columns := SampleTableOf(STEP, [4, 5, 6, 7, 8, 2, 9, 3, 0, 1]);
      FiveFromBelow(c, offset, table, columns, if 3 in c.htRates then 3 else 4);
      Exceeds(c, offset, table, 6, columns);
    } else if c.bandwidth == BW_20 {
      var columns := SampleTableOf(STEP, [4, 5, 6, 7, 8, 2, 9, 3, 0, 1]);
      FiveFromCck(c, offset, table, columns);
      Exceeds(c, offset, table, 3, columns);
    } else if 2 in c.htRates {
      var columns := SampleTableOf([8, 3, 2, 5, 7, 0, 1, 4, 6, 9], [5, 6, 2, 1, 7, 3, 8, 4, 0, 9]);
      FiveFromWideCck(c, offset, table, columns, 2);
      Exceeds(c, offset, table, 6, columns);
    } else {
      var columns := SampleTableOf([8, 3, 1, 5, 7, 0, 2, 4, 6, 9], [5, 2, 6, 1, 7, 3, 8, 4, 0, 9]);
      FiveFromWideCck(c, offset, table, columns, 1);
      Exceeds(c, offset, table, 6, columns);
    }
  }

  /** For every peer that meets the condition, on either platform, some run of an access point
      from start-up hands out a rate above MCS 6. */
  lemma ApCapFails(c: Caps, offset: int, table: seq<Entry>)
    requires PeerOk(c, offset, table) && MayExceed(c)
    ensures ApExceeds(c, offset, table)
  {
    hide ApExceeds;
    if c.vht || (6 in c.htRates && 7 in c.htRates) {
      HighPairExceeds(c, offset, table);
    } else if 5 in c.htRates && 6 in c.htRates && !CckCatches(c) {
      FiveSixExceeds(c, offset, table);
    } else {
      FiveSevenExceeds(c, offset, table);
    }
  }

  /** The cap of an access point, exactly: it can be exceeded if and only if the peer's
      capabilities meet the condition. */
  lemma ApCapFailsExactly(c: Caps, offset: int, table: seq<Entry>)
    requires PeerOk(c, offset, table)
    ensures ApExceeds(c, offset, table) <==> MayExceed(c)
  {
    hide Start, StartOk, MayExceed;
    if MayExceed(c) {
      ApCapFails(c, offset, table);
    } else if ApExceeds(c, offset, table) {
      var l: Link, columns: seq<seq<nat>> :|
        && LinkIn(l, EnvOf(c, offset)) && StartOk(c, l, table) && IsSampleTable(columns)
        && CanExceed(Start(c, l, table), columns, EnvOf(c, offset));
      var s := Start(c, l, table);
      var es :| ApRun(es, EnvOf(c, offset)) && ValidRun(s, columns, es) && Above(Run(s, columns, es));
      PeerNeverExceedsMcs6(c, l, table, columns, es);
      assert false;
    }
  }

  // ----- The peers of this driver

  /** What `aml_get_ht_cap` and `aml_create_vht_cap` make of a peer: with one chain, all eight HT
      rates; on 5 GHz and with VHT, MCS 0 to 9 for one stream. */
  function DriverCaps(band2g: bool, bandwidth: nat, sgi20: bool, sgi40: bool, sgi80: bool, vht: bool,
                      cck: set<nat>): Caps
  {
    Caps(band2g, bandwidth, sgi20, sgi40, sgi80, {0, 1, 2, 3, 4, 5, 6, 7}, vht && !band2g, 0xFFFE, cck)
  }

  /** For every peer that this driver can have, at each bandwidth and on each platform, the cap
      fails. */
  lemma EveryPeerCanExceed(band2g: bool, bandwidth: nat, sgi20: bool, sgi40: bool, sgi80: bool, vht: bool,
                           cck: set<nat>, offset: int, table: seq<Entry>)
    requires bandwidth <= BW_80 && (forall i :: i in cck ==> i < 4) && offset in {6, 10} && |table| == 4
    ensures var c := DriverCaps(band2g, bandwidth, sgi20, sgi40, sgi80, vht, cck);
            PeerOk(c, offset, table) && ApExceeds(c, offset, table)
  {
    hide ApExceeds;
    var c := DriverCaps(band2g, bandwidth, sgi20, sgi40, sgi80, vht, cck);
    assert Mask(c, if c.vht then VHT_0 else 0) != {} by {
      assert 0 in Mask(c, if c.vht then VHT_0 else 0);
    }
    HighPairExceeds(c, offset, table);
  }
}
