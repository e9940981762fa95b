/** How fast a link may start and probe, judged by its signal
    (driver/vmac/rc80211_minstrel_init.c). */
module Signal {
  import opened RateGroups

  /** What the driver knows about a peer: operating mode, received signal, channel width. */
  datatype Link = Link(
    ap: bool, avgRssi: int, beaconRssi: int, snr: int, chbw: nat,
    narrowBelow: int, wideFrom: int, rssiOffset: int, vht: bool, tailTries: nat)

  /** The offset of the power thresholds is a constant of the platform. */
  predicate LinkOk(l: Link) {
    l.chbw <= BW_80 && l.rssiOffset in {6, 10}
  }

  /** `get_fitable_bw`. */
  function FitableBw(l: Link): (bw: nat)
    ensures bw <= l.chbw
  {
    if l.ap || l.beaconRssi <= -85 then l.chbw
    else
      var bw := if l.beaconRssi < l.narrowBelow then BW_20 else if l.beaconRssi < l.wideFrom then BW_40 else BW_80;
      if bw <= l.chbw then bw else l.chbw
  }

  /** A group of bandwidth `bw` is wide enough to be sampled: it is as wide as the channel; or the
      beacon is too weak for more, in the eyes of a station that has measured one. */
  predicate WideEnough(l: Link, bw: nat) {
    || bw >= l.chbw
    || (!l.ap && l.beaconRssi > -85 && (l.beaconRssi < l.narrowBelow || (bw >= BW_40 && l.beaconRssi < l.wideFrom)))
  }

  /** The start bandwidth is the least that is wide enough. */
  lemma FitableBwExactly(l: Link, bw: nat)
    requires LinkOk(l)
    ensures bw >= FitableBw(l) <==> WideEnough(l, bw)
  {
  }

  /** A stronger beacon never narrows it. */
  lemma FitableBwMonotone(l: Link, stronger: int)
    requires !l.ap && -85 < l.beaconRssi <= stronger && l.narrowBelow <= l.wideFrom
    ensures FitableBw(l) <= FitableBw(l.(beaconRssi := stronger))
  {
  }

  /** The signal power the rate gate looks at, in dBm. */
  function Power(l: Link): int {
    if l.ap then l.avgRssi - 256 else l.beaconRssi
  }

  function RssiThresholds(bw: nat): (t: seq<int>)
    ensures |t| == 9
  {
    if bw == BW_20 then [555, -70, -75, -76, -77, -82, -85, -89, -94]
    else if bw == BW_40 then [-66, -67, -72, -73, -74, -79, -82, -86, -88]
    else [-62, -64, -68, -69, -71, -76, -79, -82, -85]
  }

  function SnrThresholds(bw: nat): (t: seq<int>)
    ensures |t| == 9
  {
    if bw == BW_20 then [555, 26, 21, 20, 19, 14, 11, 8, 5]
    else if bw == BW_40 then [27, 26, 21, 20, 19, 14, 11, 8, 6]
    else [27, 26, 22, 20, 19, 14, 11, 8, 5]
  }

  /** The rate of the first threshold from the `i`-th on that `x` reaches: 9 for the first,
      1 for the last, 0 for none. */
  function Grade(t: seq<int>, offset: int, x: int, i: nat): (r: nat)
    requires |t| == 9 && i <= 9
    ensures r <= 9 - i
    decreases 9 - i
  {
    if i == 9 then 0 else if x >= t[i] + offset then 9 - i else Grade(t, offset, x, i + 1)
  }

  /** `get_fitable_mcs_rate` for a power, a signal-to-noise ratio and a bandwidth. */
  function PermittedMcs(power: int, snr: int, offset: int, bw: nat): nat {
    if power <= -85 || power == 0 then 4
    else
      var byPower, bySnr := Grade(RssiThresholds(bw), offset, power, 0), Grade(SnrThresholds(bw), 0, snr, 0);
      var m := if byPower > bySnr then bySnr else byPower;
      if m > 6 || power >= -72 then 6 else m
  }

  function FitableMcs(l: Link, bw: nat): nat {
    PermittedMcs(Power(l), l.snr, l.rssiOffset, bw)
  }

  lemma {:induction false} GradeMonotone(t: seq<int>, offset: int, x: int, y: int, i: nat)
    requires |t| == 9 && i <= 9 && x <= y
    ensures Grade(t, offset, x, i) <= Grade(t, offset, y, i)
    decreases 9 - i
  {
    if i < 9 {
      GradeMonotone(t, offset, x, y, i + 1);
    }
  }

  /** The gate never permits more than MCS 6, permits exactly that from -72 dBm on, and over
      all signals that are not stale a better signal never lowers it. */
  lemma GateMonotoneAndCapped(power: int, power': int, snr: int, snr': int, offset: int, bw: nat)
    ensures PermittedMcs(power, snr, offset, bw) <= 6
    ensures power >= -72 && power != 0 ==> PermittedMcs(power, snr, offset, bw) == 6
    ensures -85 < power <= power' && power != 0 && power' != 0 && snr <= snr' ==>
              PermittedMcs(power, snr, offset, bw) <= PermittedMcs(power', snr', offset, bw)
  {
    if power <= power' && snr <= snr' {
      GradeMonotone(RssiThresholds(bw), offset, power, power', 0);
      GradeMonotone(SnrThresholds(bw), 0, snr, snr', 0);
    }
  }

  lemma {:induction false} GradeExactly(t: seq<int>, offset: int, x: int, i: nat, m: nat)
    requires |t| == 9 && i <= 9 && 1 <= m <= 9 - i && forall j :: 0 <= j < 8 ==> t[j] > t[j + 1]
    ensures Grade(t, offset, x, i) >= m <==> x >= t[9 - m] + offset
    decreases 9 - i
  {
    if x >= t[i] + offset {
      Descends(t, i, 9 - m);
    } else if i < 8 && m < 9 - i {
      GradeExactly(t, offset, x, i + 1, m);
    }
  }

  lemma {:induction false} Descends(t: seq<int>, i: nat, j: nat)
    requires i <= j < |t| == 9 && forall j :: 0 <= j < 8 ==> t[j] > t[j + 1]
    ensures t[i] >= t[j]
  {
    if i < j {
      Descends(t, i, j - 1);
    }
  }

  /** The gate, exactly: from -72 dBm on, or without a reading worth the name, a fixed rate; below,
      rate `m` is permitted if and only if both the power and the signal-to-noise ratio reach the
      thresholds of rate `m` at that bandwidth, which fall from rate to rate. */
  lemma GateExactly(power: int, snr: int, offset: int, bw: nat, m: nat)
    requires 1 <= m <= 6
    ensures PermittedMcs(power, snr, offset, bw) >= m <==>
            if power <= -85 || power == 0 then m <= 4
            else power >= -72 || (power >= RssiThresholds(bw)[9 - m] + offset && snr >= SnrThresholds(bw)[9 - m])
  {
    hide Grade;
    GradeExactly(RssiThresholds(bw), offset, power, 0, m);
    GradeExactly(SnrThresholds(bw), 0, snr, 0, m);
  }

  lemma GateCap(l: Link, bw: nat)
    ensures FitableMcs(l, bw) <= 6
  {
    GateMonotoneAndCapped(Power(l), Power(l), l.snr, l.snr, l.rssiOffset, bw);
  }

  /** The two stale readings cannot be included: at 0 dBm and at -85 dBm the gate answers 4,
      above and below what neighbouring readings get. */
  lemma StaleReadingsBreakMonotonicity()
    ensures PermittedMcs(-1, 30, 6, BW_80) == 6 && PermittedMcs(0, 30, 6, BW_80) == 4
    ensures PermittedMcs(-85, 30, 6, BW_80) == 4 && PermittedMcs(-84, 30, 6, BW_80) == 0
  {
    assert forall i :: 0 <= i < 9 ==> !(-84 >= RssiThresholds(BW_80)[i] + 6);
    NoneReached(RssiThresholds(BW_80), 6, -84, 0);
  }

  lemma {:induction false} NoneReached(t: seq<int>, offset: int, x: int, i: nat)
    requires |t| == 9 && i <= 9 && forall j :: 0 <= j < 9 ==> x < t[j] + offset
    ensures Grade(t, offset, x, i) == 0
    decreases 9 - i
  {
    if i < 9 {
      NoneReached(t, offset, x, i + 1);
    }
  }
}
