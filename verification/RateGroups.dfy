/** The rate table (driver/vmac/rc80211_minstrel_ht.h): eleven groups of ten rates, addressed
    by one flat cell index `group * 10 + rate`; air times; and the encoding of a cell as the
    rate entry that is handed to the hardware and later reported back. */
module RateGroups {
  import opened FixedPoint

  const GROUPS: nat := 11
  const GROUP_RATES: nat := 10
  const CELLS: nat := 110
  const CCK: nat := 4
  const VHT_0: nat := 5

  /** The cell of rate `i` of group `g`. */
  function Cell(g: nat, i: nat): (k: nat)
    ensures i < GROUP_RATES ==> k / 10 == g && k % 10 == i
  {
    g * 10 + i
  }

  const BW_20: nat := 0
  const BW_40: nat := 1
  const BW_80: nat := 2

  /** The bits of `ieee80211_tx_rate.flags` that rate control reads or writes. */
  datatype Flags = Flags(mcs: bool, vht: bool, sgi: bool, bw40: bool, bw80: bool, rts: bool)

  const NO_FLAGS := Flags(false, false, false, false, false, false)

  /** `minstrel_mcs_groups[g].flags`. */
  function GroupFlags(g: nat): Flags
    requires g < GROUPS
  {
    if g < CCK then Flags(true, false, g % 2 == 1, g >= 2, false, false)
    else if g == CCK then NO_FLAGS
    else
      var v := g - VHT_0;
      Flags(false, true, v % 2 == 1, v / 2 == BW_40, v / 2 == BW_80, false)
  }

  function FlagsBw(f: Flags): nat {
    if f.bw80 then BW_80 else if f.bw40 then BW_40 else BW_20
  }

  function GroupBw(g: nat): nat
    requires g < GROUPS
  {
    FlagsBw(GroupFlags(g))
  }

  function Streams(g: nat): nat {
    if g == CCK then 0 else 1
  }

  // ----- Air time

  const AVG_PKT_SIZE: nat := 24000

  /** Data bits per OFDM symbol; the two highest rates exist in VHT only. */
  function BitsPerSymbol(bw: nat, i: nat): nat
    requires bw <= BW_80 && i < GROUP_RATES
  {
    if bw == BW_80 then [117, 234, 351, 468, 702, 936, 1053, 1170, 1404, 1560][i]
    else if bw == BW_40 then [54, 108, 162, 216, 324, 432, 486, 540, 648, 720][i]
    else [26, 52, 78, 104, 156, 208, 234, 260, 312, 346][i]
  }

  /** `MCS_DURATION` for one stream: 16 frames of the average size, 3072000 bits. */
  function McsDuration(sgi: bool, bps: nat): nat
    requires bps > 0
  {
    var syms := (3072000 + bps - 1) / bps;
    (if sgi then (syms * 18000 + 4000) / 5 else syms * 4000) / 16
  }

  /** `CCK_DURATION`. */
  function CckDuration(bitrate: nat, short: bool, len: nat): nat
    requires bitrate > 0
  {
    1000 * (10 + (if short then 72 + 24 else 144 + 48) + 8 * (len + 4) * 10 / bitrate)
  }

  /** `CCK_ACK_DURATION`. */
  function CckAckDuration(bitrate: nat, short: bool): nat
    requires bitrate > 0
  {
    CckDuration(if bitrate > 10 then 20 else 10, false, 60) + CckDuration(bitrate, short, AVG_PKT_SIZE)
  }

  /** `minstrel_mcs_groups[k / 10].duration[k % 10]`; slots the table leaves out are zero. */
  function Duration(k: nat): nat
    requires k < CELLS
  {
    var g, i := k / 10, k % 10;
    if g == CCK then
      if i < 8 then CckAckDuration([10, 20, 55, 110][i % 4], i >= 4) else 0
    else if g < CCK && i >= 8 then 0
    else McsDuration(GroupFlags(g).sgi, BitsPerSymbol(GroupBw(g), i))
  }

  // ----- What a station supports

  /** `mi->supported[]`, each mask as the set of its bits. */
  type Masks = seq<set<nat>>

  ghost predicate ValidMasks(sup: Masks) {
    && |sup| == GROUPS
    && (forall g, i :: 0 <= g < GROUPS && i in sup[g] ==>
          i < if g < CCK then 8 else if g == CCK then 4 else GROUP_RATES)
    && exists g :: 0 <= g < GROUPS && sup[g] != {}
  }

  predicate Supports(sup: Masks, k: nat)
    requires |sup| == GROUPS && k < CELLS
  {
    k % 10 in sup[k / 10]
  }

  /** What the peer announced. */
  datatype Caps = Caps(
    band2g: bool, bandwidth: nat, sgi20: bool, sgi40: bool, sgi80: bool,
    htRates: set<nat>, vht: bool, mcsMap: nat, cckRates: set<nat>)

  ghost predicate ValidCaps(c: Caps) {
    && (forall i :: i in c.htRates ==> i < 8)
    && (forall i :: i in c.cckRates ==> i < 4)
  }

  /** `minstrel_get_valid_vht_rates` for one stream. */
  function VhtRates(bw: nat, mcsMap: nat): set<nat> {
    var all := {0, 1, 2, 3, 4, 5, 6, 7, 8, 9};
    var code := mcsMap % 4;
    if code == 3 then {}
    else
      all - (if bw == BW_20 then {9} else {}) - (if code == 0 then {8, 9} else if code == 1 then {9} else {})
  }

  /** The two bits for the first stream: 3 means none; 0, 1 and 2 mean rates up to 7, 8 and 9,
      of which 20 MHz does not have the last. */
  lemma VhtRatesExactly(bw: nat, mcsMap: nat, i: nat)
    ensures i in VhtRates(bw, mcsMap) <==>
            mcsMap % 4 != 3 && i <= 7 + mcsMap % 4 && (i == 9 ==> bw != BW_20)
  {
  }

  /** The mask `minstrel_ht_update_caps` stores for group `g`. */
  function Mask(c: Caps, g: nat): set<nat>
    requires g < GROUPS
  {
    var f := GroupFlags(g);
    var useVht := c.vht && c.mcsMap != 0;
    if g == CCK then if c.band2g then c.cckRates else {}
    else if !f.bw80 && f.sgi && !(if f.bw40 then c.sgi40 else c.sgi20) then {}
    else if f.bw40 && c.bandwidth < BW_40 then {}
    else if f.mcs then if useVht then {} else c.htRates
    else if !c.vht then {}
    else if f.bw80 && (c.bandwidth < BW_80 || (f.sgi && !c.sgi80)) then {}
    else if c.bandwidth < GroupBw(g) then {}
    else VhtRates(GroupBw(g), c.mcsMap)
  }

  /** Which rates a peer is sent at, group by group. HT groups 0 to 3 and VHT groups 5 to 10 come in
      pairs, without and with the short guard interval, of 20, 40 and, for VHT, 80 MHz. */
  lemma MaskExactly(c: Caps, g: nat, i: nat)
    requires g < GROUPS && c.bandwidth <= BW_80
    ensures var pair, sgi := if g < 4 then g / 2 else (g - 5) / 2, if g < 4 then g % 2 == 1 else g % 2 == 0;
            i in Mask(c, g) <==>
              if g == 4 then c.band2g && i in c.cckRates
              else
                && pair <= c.bandwidth
                && (sgi ==> if pair == 0 then c.sgi20 else if pair == 1 then c.sgi40 else c.sgi80)
                && (if g < 4 then i in c.htRates && (c.vht ==> c.mcsMap == 0)
                    else c.vht && i in VhtRates(pair, c.mcsMap))
  {
    hide VhtRates;
  }

  /** Some group other than CCK is usable; otherwise the legacy engine takes over. */
  ghost predicate HtUsable(c: Caps) {
    exists g :: 0 <= g < GROUPS && g != CCK && Mask(c, g) != {}
  }

  lemma MasksAreValid(c: Caps, sup: Masks)
    requires ValidCaps(c) && HtUsable(c)
    requires |sup| == GROUPS && forall g :: 0 <= g < GROUPS ==> sup[g] == Mask(c, g)
    ensures ValidMasks(sup)
    ensures forall g :: 0 <= g < GROUPS && g != CCK && sup[g] != {} ==> GroupBw(g) <= c.bandwidth
    ensures 9 !in sup[VHT_0] && 9 !in sup[VHT_0 + 1]
  {
    var g :| 0 <= g < GROUPS && g != CCK && Mask(c, g) != {};
    assert sup[g] != {};
  }

  /** A slot has an air time exactly when its group defines the rate; in particular every
      supported rate has one, and no 32-bit sum of air times over an aggregate is near zero. */
  lemma DurationPositive(k: nat)
    requires k < CELLS
    ensures Duration(k) > 0 <==> k % 10 < 8 || k / 10 > CCK
    ensures Duration(k) > 0 ==> 443300 <= Duration(k) <= 192948000
  {
    var g, i := k / 10, k % 10;
    if g == CCK {
      if i < 8 {
        assert CckAckDuration([10, 20, 55, 110][i % 4], i >= 4) >= 443300;
      }
    } else {
      McsDurationBounds(GroupFlags(g).sgi, BitsPerSymbol(GroupBw(g), i));
    }
  }

  /** More bits per symbol, less air time; and less with the short guard interval. */
  lemma McsDurationFalls(sgi: bool, a: nat, b: nat)
    requires 26 <= a && a + 26 <= b <= 1560
    ensures McsDuration(sgi, b) < McsDuration(sgi, a)
  {
    var q := (3072000 + b - 1) / b;
    WholePart(3072000 + b - 1, b);
    QuotientAtLeast(3072000 + b - 1, b, 1970);
    assert q * a + q * (b - a) == q * b;
    MoreThan(q, b - a);
    QuotientAtLeast(3072000 + a - 1, a, q + 1);
  }

  lemma MoreThan(q: nat, d: nat)
    requires q >= 1970 && d >= 26
    ensures q * d >= 51220
  {
    assert q * d == 1970 * 26 + (q - 1970) * 26 + q * (d - 26);
  }

  lemma ShortIsFaster(bps: nat)
    requires 26 <= bps <= 1560
    ensures McsDuration(true, bps) < McsDuration(false, bps)
  {
    QuotientAtLeast(3072000 + bps - 1, bps, 1970);
  }

  lemma GroupAir(g: nat, i: nat)
    requires g < GROUPS && g != CCK && i < GROUP_RATES && (g < CCK ==> i < 8)
    ensures Duration(Cell(g, i)) ==
            McsDuration(if g < CCK then g % 2 == 1 else g % 2 == 0,
                        BitsPerSymbol(if g < CCK then g / 2 else (g - 5) / 2, i))
  {
    hide McsDuration, BitsPerSymbol;
  }

  lemma BitsGrow(bw: nat, i: nat)
    requires bw <= BW_80 && i < GROUP_RATES
    ensures 26 <= BitsPerSymbol(bw, i) <= 1560
    ensures i < 9 ==> BitsPerSymbol(bw, i) + 26 <= BitsPerSymbol(bw, i + 1)
    ensures bw < BW_80 ==> BitsPerSymbol(bw, i) + 26 <= BitsPerSymbol(bw + 1, i)
  {
  }

  /** Air time falls from rate to rate, with the short guard interval, and with each doubling of
      the bandwidth; VHT takes as long as HT. */
  lemma McsDurationOrder(g: nat, i: nat)
    requires g < GROUPS && g != CCK && i < GROUP_RATES && (g < CCK ==> i < 8)
    ensures (if g < CCK then i < 7 else i < 9) ==> Duration(Cell(g, i + 1)) < Duration(Cell(g, i))
    ensures g in {0, 2, 5, 7, 9} ==> Duration(Cell(g + 1, i)) < Duration(Cell(g, i))
    ensures g in {0, 1, 5, 6, 7, 8} ==> Duration(Cell(g + 2, i)) < Duration(Cell(g, i))
    ensures g < CCK ==> Duration(Cell(g, i)) == Duration(Cell(g + 5, i))
  {
    hide Duration, McsDuration, BitsPerSymbol;
    var bw, sgi := if g < CCK then g / 2 else (g - 5) / 2, if g < CCK then g % 2 == 1 else g % 2 == 0;
    GroupAir(g, i);
    BitsGrow(bw, i);
    var bps := BitsPerSymbol(bw, i);
    if if g < CCK then i < 7 else i < 9 {
      GroupAir(g, i + 1);
      BitsGrow(bw, i + 1);
      McsDurationFalls(sgi, bps, BitsPerSymbol(bw, i + 1));
    }
    if g in {0, 2, 5, 7, 9} {
      GroupAir(g + 1, i);
      ShortIsFaster(bps);
    }
    if g in {0, 1, 5, 6, 7, 8} {
      GroupAir(g + 2, i);
      BitsGrow(bw + 1, i);
      McsDurationFalls(sgi, bps, BitsPerSymbol(bw + 1, i));
    }
    if g < CCK {
      GroupAir(g + 5, i);
    }
  }

  /** For CCK it falls from rate to rate, and with the short preamble. */
  lemma CckDurationOrder(i: nat)
    requires i < 4
    ensures Duration(Cell(CCK, i + 4)) < Duration(Cell(CCK, i))
    ensures i < 3 ==> Duration(Cell(CCK, i + 1)) < Duration(Cell(CCK, i))
    ensures i < 3 ==> Duration(Cell(CCK, i + 5)) < Duration(Cell(CCK, i + 4))
  {
    hide CckAckDuration;
    LongFrames();
    ShortFrames();
  }

  lemma LongFrames()
    ensures CckAckDuration(10, false) == 192948000 && CckAckDuration(20, false) == 96676000
    ensures CckAckDuration(55, false) == 35574000 && CckAckDuration(110, false) == 18117000
  {
  }

  lemma ShortFrames()
    ensures CckAckDuration(10, true) == 192852000 && CckAckDuration(20, true) == 96580000
    ensures CckAckDuration(55, true) == 35478000 && CckAckDuration(110, true) == 18021000
  {
  }

  lemma McsDurationBounds(sgi: bool, bps: nat)
    requires 26 <= bps <= 1560
    ensures 443300 <= McsDuration(sgi, bps) <= 192948000
  {
    var n := 3072000 + bps - 1;
    QuotientAtLeast(n, bps, 1970);
    QuotientAtMost(n, bps, 118155);
  }

  // ----- A cell as a rate entry, and back

  /** The band index of the four CCK rates, `minstrel_priv.cck_rates`. */
  const CCK_RATES: seq<nat> := [0, 1, 2, 3]

  /** The rate index `minstrel_ht_set_rate` writes for cell `k`. */
  function RateIdx(k: nat): nat
    requires k < CELLS
  {
    if k / 10 == CCK then CCK_RATES[k % 4] else k % 10
  }

  function CckPosition(idx: int): nat {
    if idx in CCK_RATES then idx else 4
  }

  /** The cell `minstrel_ht_get_stats` credits for a reported entry. */
  function CellOf(sup: Masks, idx: int, f: Flags): int
    requires |sup| == GROUPS
    requires f.mcs || f.vht ==> idx >= 0
  {
    if f.mcs then
      ((if f.bw40 then 2 else 0) + (if f.sgi then 1 else 0) + idx / 8) * 10 + idx % 8
    else if f.vht then
      (VHT_0 + 2 * ((if f.bw40 then 1 else 0) + (if f.bw80 then 2 else 0)) + (if f.sgi then 1 else 0) + idx / 16)
        * 10 + idx % 16
    else
      var pos := CckPosition(idx);
      40 + if pos in sup[CCK] then pos else pos + 4
  }

  /** The report of an entry encoded from cell `k`. */
  function Report(sup: Masks, k: nat, rts: bool): int
    requires |sup| == GROUPS && k < CELLS
  {
    CellOf(sup, RateIdx(k), GroupFlags(k / 10).(rts := rts))
  }

  lemma HtReport(sup: Masks, k: nat, rts: bool)
    requires |sup| == GROUPS && k / 10 < CCK
    ensures Report(sup, k, rts) == if k % 10 < 8 then k else k + 2
  {
    var f := GroupFlags(k / 10);
    assert (if f.bw40 then 2 else 0) + (if f.sgi then 1 else 0) == k / 10;
  }

  lemma CckReport(sup: Masks, k: nat, rts: bool)
    requires |sup| == GROUPS && k / 10 == CCK
    ensures Report(sup, k, rts) == 40 + k % 4 + if k % 4 in sup[CCK] then 0 else 4
  {
  }

  lemma VhtReport(sup: Masks, k: nat, rts: bool)
    requires |sup| == GROUPS && CCK < k / 10 < GROUPS
    ensures Report(sup, k, rts) == k
  {
  }

  /** The slot is real: an HT slot below 8, a VHT slot, or the CCK slot whose preamble the
      mask selects. */
  predicate RealSlot(sup: Masks, k: nat)
    requires |sup| == GROUPS
  {
    var i := k % 10;
    if k / 10 < CCK then i < 8
    else if k / 10 == CCK then i < 8 && (i < 4 <==> i % 4 in sup[CCK])
    else true
  }

  /** Encoding a cell and crediting the report hits a cell of the table, and the same one
      exactly when the slot is real, as it is for every supported rate. */
  lemma CreditReturnsToCell(sup: Masks, k: nat, rts: bool)
    requires ValidMasks(sup) && k < CELLS
    ensures 0 <= Report(sup, k, rts) < CELLS
    ensures Report(sup, k, rts) == k <==> RealSlot(sup, k)
    ensures Supports(sup, k) ==> RealSlot(sup, k)
  {
    if k / 10 < CCK {
      HtReport(sup, k, rts);
    } else if k / 10 == CCK {
      CckReport(sup, k, rts);
    } else {
      VhtReport(sup, k, rts);
    }
  }
}
