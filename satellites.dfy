/**
 * The mock constellation data: the constellation table, the satellite generator, the ground
 * station and link tables, and the dashboard counts derived from them.
 *
 * `Math.random()` is modelled by `random: nat -> real`: the k-th call of a run returns
 * `random(k)`, and the generator reads it in the order the object literals evaluate their
 * fields (status, the two launch-date draws, then the position).
 */
module SatelliteData {
  import opened Wrappers
  import opened JsText
  import opened Sequences
  import opened Types

  // ---------------------------------------------------------------- constellations

  const Constellations: seq<Constellation> := [
    Constellation("gps", "GPS", "Global Positioning System - US military navigation constellation",
      "#4a9eff", 31, MEO, "Navigation & Timing"),
    Constellation("starlink", "Starlink", "SpaceX broadband internet constellation",
      "#00ffff", 5000, LEO, "Broadband Internet"),
    Constellation("sbirs", "SBIRS", "Space-Based Infrared System - Missile warning",
      "#ff3366", 6, GEO, "Missile Warning"),
    Constellation("wgs", "WGS", "Wideband Global SATCOM - Military communications",
      "#00ff88", 10, GEO, "Military Communications"),
    Constellation("nro", "NRO Reconnaissance", "National Reconnaissance Office imaging satellites",
      "#9d4edd", 8, LEO, "Intelligence & Surveillance")
  ]

  /** `constellations.map(c => c.id)`. */
  function ConstellationIds(cs: seq<Constellation>): (ids: seq<string>)
    ensures |ids| == |cs|
    ensures forall i :: 0 <= i < |cs| ==> ids[i] == cs[i].id
  {
    if cs == [] then [] else [cs[0].id] + ConstellationIds(cs[1..])
  }

  /** The orbit type the first table entry with identifier `id` declares, if any. */
  function OrbitTypeOf(cs: seq<Constellation>, id: string): (r: Option<OrbitType>)
    ensures r.None? <==> forall i :: 0 <= i < |cs| ==> cs[i].id != id
    ensures r.Some? ==> exists i :: 0 <= i < |cs| && cs[i].id == id && cs[i].orbitType == r.value
                                  && forall j :: 0 <= j < i ==> cs[j].id != id
  {
    if cs == [] then None
    else if cs[0].id == id then Some(cs[0].orbitType)
    else
      var r := OrbitTypeOf(cs[1..], id);
      assert forall i :: 1 <= i < |cs| ==> cs[i] == cs[1..][i - 1];
      r
  }

  /** The table lists the five constellations gps, starlink, sbirs, wgs and nro, in that order. */
  lemma ConstellationTable()
    ensures ConstellationIds(Constellations) == ["gps", "starlink", "sbirs", "wgs", "nro"]
  {
    var ids := ConstellationIds(Constellations);
    assert |ids| == 5;
    assert ids[0] == "gps" && ids[1] == "starlink" && ids[2] == "sbirs";
    assert ids[3] == "wgs" && ids[4] == "nro";
  }

  /** No two table entries share an identifier. */
  lemma ConstellationIdsDistinct()
    ensures Distinct(ConstellationIds(Constellations))
  {
    ConstellationTable();
    FiveIdsDistinct();
  }

  /** The five identifiers differ pairwise: their first two letters already tell them apart. */
  lemma FiveIdsDistinct()
    ensures Distinct(["gps", "starlink", "sbirs", "wgs", "nro"])
  {
    var ids := ["gps", "starlink", "sbirs", "wgs", "nro"];
    forall i, j | 0 <= i < 5 && 0 <= j < 5 && i != j
      ensures ids[i] != ids[j]
    {
      assert ids[i][0] != ids[j][0] || ids[i][1] != ids[j][1];
    }
  }

  // ---------------------------------------------------------------- identifiers

  /** `SAT-${String(n).padStart(4, '0')}`: four prefix characters and at least four digits;
      `SatelliteIdFormat` spells the digits out. */
  function SatelliteId(n: nat): (id: string)
    ensures |id| >= 8
  {
    "SAT-" + PadStart(Decimal(n), 4, '0')
  }

  /** Different counters give different identifiers, however many digits they need. */
  lemma SatelliteIdInjective(n: nat, m: nat)
    ensures SatelliteId(n) == SatelliteId(m) ==> n == m
  {
    if SatelliteId(n) == SatelliteId(m) {
      assert SatelliteId(n)[4..] == PadStart(Decimal(n), 4, '0');
      assert SatelliteId(m)[4..] == PadStart(Decimal(m), 4, '0');
      PaddedDecimalValue(n, 4);
      PaddedDecimalValue(m, 4);
    }
  }

  /**
   * Every identifier is `SAT-` followed by the counter in decimal, zero-filled on the left to
   * four digits; the digits read back as the counter.
   */
  lemma SatelliteIdFormat(n: nat)
    ensures SatelliteId(n)[..4] == "SAT-"
    ensures |SatelliteId(n)| == 4 + Max(4, |Decimal(n)|) && AllDigits(SatelliteId(n)[4..])
    ensures |Decimal(n)| < 4 ==> SatelliteId(n)[4..] == Repeat('0', 4 - |Decimal(n)|) + Decimal(n)
    ensures |Decimal(n)| >= 4 ==> SatelliteId(n)[4..] == Decimal(n)
    ensures DigitsValue(SatelliteId(n)[4..]) == n
  {
    var p := PadStart(Decimal(n), 4, '0');
    assert SatelliteId(n)[4..] == p;
    PaddedDecimalShape(n, 4);
  }

  /** The first and the last generated identifiers. */
  lemma SatelliteIdRange()
    ensures SatelliteId(1) == "SAT-0001"
    ensures SatelliteId(98) == "SAT-0098"
  {
    assert Decimal(1) == "1";
    assert Decimal(9) == "9" && Decimal(8) == "8";
    assert Decimal(98) == "98";
    assert Repeat('0', 2) == "00";
    assert Repeat('0', 3) == "000";
  }

  // ---------------------------------------------------------------- the generated records

  /** Every call of `Math.random()` returns a value in [0, 1). */
  ghost predicate UnitDraws(random: nat -> real) {
    forall k :: 0.0 <= random(k) < 1.0
  }

  /** GPS satellite `i` (orbital plane i / 4, slot i % 4), drawing from position `c` on. */
  function GpsSatellite(i: nat, n: nat, random: nat -> real, c: nat): Satellite {
    var plane := i / 4;
    var slot := i % 4;
    Satellite(SatelliteId(n), "GPS IIF-" + Decimal(i + 1), "gps", Navigation, MEO, 20200.0, 55.0, 718.0,
      if random(c) > 0.1 then Operational else Degraded,
      Position((random(c + 3) - 0.5) * 110.0, (plane * 60) as real + (slot * 15) as real + random(c + 4) * 10.0, 20200.0),
      3.87)
  }

  /** The status of a Starlink satellite takes a second draw only when the first one is low. */
  function StarlinkStatusDraws(random: nat -> real, c: nat): nat {
    if random(c) > 0.05 then 1 else 2
  }

  function StarlinkSatellite(i: nat, n: nat, random: nat -> real, c: nat): Satellite {
    var d := StarlinkStatusDraws(random, c);
    var status := if random(c) > 0.05 then Operational else if random(c + 1) > 0.5 then Degraded else Offline;
    Satellite(SatelliteId(n), "Starlink-" + Decimal(1000 + i), "starlink", Communication, LEO, 550.0, 53.0, 95.0,
      status, Position((random(c + d + 2) - 0.5) * 106.0, (random(c + d + 3) - 0.5) * 360.0, 550.0), 7.66)
  }

  /** Draw position reached after `i` more Starlink satellites, starting at draw position `c`. */
  function StarlinkCursor(random: nat -> real, c: nat, i: nat): nat
    decreases i
  {
    if i == 0 then c else StarlinkCursor(random, c + StarlinkStatusDraws(random, c) + 4, i - 1)
  }

  /** One more Starlink satellite moves the cursor past its status draws and four more draws. */
  lemma {:induction false} StarlinkCursorStep(random: nat -> real, c: nat, i: nat)
    decreases i
    ensures var e := StarlinkCursor(random, c, i);
      StarlinkCursor(random, c, i + 1) == e + StarlinkStatusDraws(random, e) + 4
  {
    if i > 0 {
      StarlinkCursorStep(random, c + StarlinkStatusDraws(random, c) + 4, i - 1);
    }
  }

  /** Draw position at which Starlink satellite `i` starts: after the 24 GPS satellites' 120 draws. */
  function StarlinkStart(random: nat -> real, i: nat): nat {
    StarlinkCursor(random, 5 * 24, i)
  }

  const SbirsPositions: seq<real> := [-135.0, -90.0, -45.0, 0.0, 45.0, 90.0]

  const WgsPositions: seq<real> := [-178.0, -135.0, -92.0, -52.0, 12.0, 60.0, 84.0, 143.0, 172.0, -12.0]

  function SbirsSatellite(i: nat, n: nat): Satellite
    requires i < |SbirsPositions|
  {
    Satellite(SatelliteId(n), "SBIRS-GEO-" + Decimal(i + 1), "sbirs", Military, GEO, 35786.0, 0.0, 1436.0,
      Operational, Position(0.0, SbirsPositions[i], 35786.0), 3.07)
  }

  function WgsSatellite(i: nat, n: nat): Satellite
    requires i < |WgsPositions|
  {
    Satellite(SatelliteId(n), "WGS-" + Decimal(i + 1), "wgs", Communication, GEO, 35786.0, 0.0, 1436.0,
      Operational, Position(0.0, WgsPositions[i], 35786.0), 3.07)
  }

  /** An NRO satellite: altitude, inclination and period draws, two launch-date draws, the position. */
  function NroSatellite(i: nat, n: nat, random: nat -> real, c: nat): Satellite {
    Satellite(SatelliteId(n), "USA-" + Decimal(280 + i), "nro", Reconnaissance, LEO,
      250.0 + random(c) * 300.0, 97.0 + random(c + 1) * 6.0, 90.0 + random(c + 2) * 10.0, Operational,
      Position((random(c + 5) - 0.5) * 180.0, (random(c + 6) - 0.5) * 360.0, 250.0 + random(c + 7) * 300.0),
      7.8)
  }

  /** The satellite the i-th iteration of each loop pushes, given the draws of all earlier iterations. */
  function GpsFeed(random: nat -> real): nat -> Satellite {
    (k: nat) => GpsSatellite(k, k + 1, random, 5 * k)
  }

  function StarlinkFeed(random: nat -> real): nat -> Satellite {
    (k: nat) => StarlinkSatellite(k, k + 25, random, StarlinkStart(random, k))
  }

  function SbirsFeed(): nat --> Satellite {
    (k: nat) requires k < |SbirsPositions| => SbirsSatellite(k, k + 75)
  }

  function WgsFeed(): nat --> Satellite {
    (k: nat) requires k < |WgsPositions| => WgsSatellite(k, k + 81)
  }

  /** First draw of the NRO loop: after the Starlink draws and two launch-date draws per geostationary satellite. */
  function NroStart(random: nat -> real): nat {
    StarlinkStart(random, 50) + 2 * 6 + 2 * 10
  }

  function NroFeed(random: nat -> real): nat -> Satellite {
    (k: nat) => NroSatellite(k, k + 91, random, NroStart(random) + 8 * k)
  }

  /** Each feed yields its block's satellite for the iteration asked for. */
  lemma GpsFeedAt(random: nat -> real, k: nat)
    ensures GpsFeed(random)(k) == GpsSatellite(k, k + 1, random, 5 * k)
  {
  }

  lemma StarlinkFeedAt(random: nat -> real, k: nat)
    ensures StarlinkFeed(random)(k) == StarlinkSatellite(k, k + 25, random, StarlinkStart(random, k))
  {
  }

  lemma SbirsFeedAt(k: nat)
    requires k < |SbirsPositions|
    ensures SbirsFeed()(k) == SbirsSatellite(k, k + 75)
  {
  }

  lemma WgsFeedAt(k: nat)
    requires k < |WgsPositions|
    ensures WgsFeed()(k) == WgsSatellite(k, k + 81)
  {
  }

  lemma NroFeedAt(random: nat -> real, k: nat)
    ensures NroFeed(random)(k) == NroSatellite(k, k + 91, random, NroStart(random) + 8 * k)
  {
  }

  /**
   * The generator's output: 24 GPS, 50 Starlink, 6 SBIRS, 10 WGS and 8 NRO satellites in this
   * order, numbered 1 to 98 by one counter, each built from the draws that follow its predecessor's.
   */
  function Generated(random: nat -> real): seq<Satellite> {
    Block(24, GpsFeed(random)) + Block(50, StarlinkFeed(random)) + Block(6, SbirsFeed())
      + Block(10, WgsFeed()) + Block(8, NroFeed(random))
  }

  /** The generator: the five loops of generateSatellites, which share one
      output list, one id counter and one stream of random draws; each loop is
      a method of its own below. */
  method GenerateSatellites(random: nat -> real) returns (sats: seq<Satellite>)
    ensures sats == Generated(random)
  {
    sats := [];
    var id := 1;
    var draw := 0;
    sats, id, draw := AddGps(random, sats, id, draw);
    sats, id, draw := AddStarlink(random, sats, id, draw);
    sats, id, draw := AddSbirs(random, sats, id, draw);
    sats, id, draw := AddWgs(random, sats, id, draw);
    sats, id, draw := AddNro(random, sats, id, draw);
  }

  /** The GPS loop: 24 satellites, ids 1 to 24, five draws each. */
  method AddGps(random: nat -> real, sats: seq<Satellite>, id: nat, draw: nat)
    returns (sats': seq<Satellite>, id': nat, draw': nat)
    requires id == 1 && draw == 0
    ensures sats' == sats + Block(24, GpsFeed(random))
    ensures id' == 25 && draw' == 5 * 24
  {
    sats', id', draw' := sats, id, draw;
    for i := 0 to 24
      invariant sats' == sats + Block(i, GpsFeed(random))
      invariant id' == i + 1 && draw' == 5 * i
    {
      BlockStep(i, GpsFeed(random));
      GpsFeedAt(random, i);
      AppendAssociative(sats, Block(i, GpsFeed(random)), [GpsSatellite(i, id', random, draw')]);
      sats' := sats' + [GpsSatellite(i, id', random, draw')];
      id' := id' + 1;
      draw' := draw' + 5;
    }
  }

  /** The Starlink loop: 50 satellites, ids 25 to 74, one or two status draws
      and four more each. */
  method AddStarlink(random: nat -> real, sats: seq<Satellite>, id: nat, draw: nat)
    returns (sats': seq<Satellite>, id': nat, draw': nat)
    requires id == 25 && draw == 5 * 24
    ensures sats' == sats + Block(50, StarlinkFeed(random))
    ensures id' == 75 && draw' == StarlinkStart(random, 50)
  {
    sats', id', draw' := sats, id, draw;
    for i := 0 to 50
      invariant sats' == sats + Block(i, StarlinkFeed(random))
      invariant id' == 25 + i && draw' == StarlinkStart(random, i)
    {
      StarlinkLoopStep(random, sats, i);
      sats' := sats' + [StarlinkSatellite(i, id', random, draw')];
      id' := id' + 1;
      draw' := draw' + StarlinkStatusDraws(random, draw') + 4;
    }
  }

  /** One turn of the Starlink loop appends the feed's next record and moves
      the draw position past that record's draws. */
  lemma StarlinkLoopStep(random: nat -> real, sats: seq<Satellite>, i: nat)
    ensures var c := StarlinkStart(random, i);
      && sats + Block(i, StarlinkFeed(random)) + [StarlinkSatellite(i, 25 + i, random, c)]
         == sats + Block(i + 1, StarlinkFeed(random))
      && StarlinkStart(random, i + 1) == c + StarlinkStatusDraws(random, c) + 4
  {
    BlockStep(i, StarlinkFeed(random));
    StarlinkFeedAt(random, i);
    AppendAssociative(sats, Block(i, StarlinkFeed(random)), [StarlinkFeed(random)(i)]);
    StarlinkCursorStep(random, 5 * 24, i);
  }

  /** The SBIRS loop: 6 satellites, ids 75 to 80, two draws each (the launch
      date only). */
  method AddSbirs(random: nat -> real, sats: seq<Satellite>, id: nat, draw: nat)
    returns (sats': seq<Satellite>, id': nat, draw': nat)
    requires id == 75
    ensures sats' == sats + Block(6, SbirsFeed())
    ensures id' == 81 && draw' == draw + 2 * 6
  {
    sats', id', draw' := sats, id, draw;
    for i := 0 to 6
      invariant sats' == sats + Block(i, SbirsFeed())
      invariant id' == 75 + i && draw' == draw + 2 * i
    {
      BlockStep(i, SbirsFeed());
      SbirsFeedAt(i);
      AppendAssociative(sats, Block(i, SbirsFeed()), [SbirsSatellite(i, id')]);
      sats' := sats' + [SbirsSatellite(i, id')];
      id' := id' + 1;
      draw' := draw' + 2;
    }
  }

  /** The WGS loop: 10 satellites, ids 81 to 90, two draws each. */
  method AddWgs(random: nat -> real, sats: seq<Satellite>, id: nat, draw: nat)
    returns (sats': seq<Satellite>, id': nat, draw': nat)
    requires id == 81
    ensures sats' == sats + Block(10, WgsFeed())
    ensures id' == 91 && draw' == draw + 2 * 10
  {
    sats', id', draw' := sats, id, draw;
    for i := 0 to 10
      invariant sats' == sats + Block(i, WgsFeed())
      invariant id' == 81 + i && draw' == draw + 2 * i
    {
      BlockStep(i, WgsFeed());
      WgsFeedAt(i);
      AppendAssociative(sats, Block(i, WgsFeed()), [WgsSatellite(i, id')]);
      sats' := sats' + [WgsSatellite(i, id')];
      id' := id' + 1;
      draw' := draw' + 2;
    }
  }

  /** The NRO loop: 8 satellites, ids 91 to 98, eight draws each. */
  method AddNro(random: nat -> real, sats: seq<Satellite>, id: nat, draw: nat)
    returns (sats': seq<Satellite>, id': nat, draw': nat)
    requires id == 91 && draw == NroStart(random)
    ensures sats' == sats + Block(8, NroFeed(random))
    ensures id' == 99 && draw' == draw + 8 * 8
  {
    sats', id', draw' := sats, id, draw;
    for i := 0 to 8
      invariant sats' == sats + Block(i, NroFeed(random))
      invariant id' == 91 + i && draw' == NroStart(random) + 8 * i
    {
      BlockStep(i, NroFeed(random));
      NroFeedAt(random, i);
      AppendAssociative(sats, Block(i, NroFeed(random)), [NroSatellite(i, id', random, draw')]);
      sats' := sats' + [NroSatellite(i, id', random, draw')];
      id' := id' + 1;
      draw' := draw' + 8;
    }
  }

  // ---------------------------------------------------------------- what the generated list holds

  /** The first 24 satellites are the GPS loop's, in iteration order. */
  lemma GeneratedGps(random: nat -> real, k: nat)
    requires k < 24
    ensures |Generated(random)| == 98 && Generated(random)[k] == GpsSatellite(k, k + 1, random, 5 * k)
  {
    IndexOfFive(Block(24, GpsFeed(random)), Block(50, StarlinkFeed(random)), Block(6, SbirsFeed()),
      Block(10, WgsFeed()), Block(8, NroFeed(random)), k);
    GpsFeedAt(random, k);
  }

  /** The next 50 are the Starlink loop's. */
  lemma GeneratedStarlink(random: nat -> real, k: nat)
    requires 24 <= k < 74
    ensures |Generated(random)| == 98
    ensures Generated(random)[k] == StarlinkSatellite(k - 24, k + 1, random, StarlinkStart(random, k - 24))
  {
    IndexOfFive(Block(24, GpsFeed(random)), Block(50, StarlinkFeed(random)), Block(6, SbirsFeed()),
      Block(10, WgsFeed()), Block(8, NroFeed(random)), k);
    StarlinkFeedAt(random, k - 24);
  }

  /** Then the 6 SBIRS satellites. */
  lemma GeneratedSbirs(random: nat -> real, k: nat)
    requires 74 <= k < 80
    ensures |Generated(random)| == 98 && Generated(random)[k] == SbirsSatellite(k - 74, k + 1)
  {
    IndexOfFive(Block(24, GpsFeed(random)), Block(50, StarlinkFeed(random)), Block(6, SbirsFeed()),
      Block(10, WgsFeed()), Block(8, NroFeed(random)), k);
    SbirsFeedAt(k - 74);
  }

  /** Then the 10 WGS satellites. */
  lemma GeneratedWgs(random: nat -> real, k: nat)
    requires 80 <= k < 90
    ensures |Generated(random)| == 98 && Generated(random)[k] == WgsSatellite(k - 80, k + 1)
  {
    IndexOfFive(Block(24, GpsFeed(random)), Block(50, StarlinkFeed(random)), Block(6, SbirsFeed()),
      Block(10, WgsFeed()), Block(8, NroFeed(random)), k);
    WgsFeedAt(k - 80);
  }

  /** And last the 8 NRO satellites. */
  lemma GeneratedNro(random: nat -> real, k: nat)
    requires 90 <= k < 98
    ensures |Generated(random)| == 98
    ensures Generated(random)[k] == NroSatellite(k - 90, k + 1, random, NroStart(random) + 8 * (k - 90))
  {
    IndexOfFive(Block(24, GpsFeed(random)), Block(50, StarlinkFeed(random)), Block(6, SbirsFeed()),
      Block(10, WgsFeed()), Block(8, NroFeed(random)), k);
    NroFeedAt(random, k - 90);
  }

  /** Identifier, constellation and orbit type of the satellite at position k. */
  lemma GeneratedHead(random: nat -> real, k: nat)
    requires k < 98
    ensures |Generated(random)| == 98
    ensures Generated(random)[k].id == SatelliteId(k + 1)
    ensures Generated(random)[k].constellation == BlockConstellation(k)
    ensures Generated(random)[k].orbitType == BlockOrbitType(k)
  {
    if k < 24 {
      GeneratedGps(random, k);
    } else if k < 74 {
      GeneratedStarlink(random, k);
    } else if k < 80 {
      GeneratedSbirs(random, k);
    } else if k < 90 {
      GeneratedWgs(random, k);
    } else {
      GeneratedNro(random, k);
    }
  }

  /** The orbit type each block's loop writes. */
  function BlockOrbitType(k: nat): OrbitType {
    if k < 24 then MEO else if k < 74 then LEO else if k < 90 then GEO else LEO
  }

  /** The constellation each generated position belongs to, in the generator's block order. */
  function BlockConstellation(k: nat): string {
    if k < 24 then "gps" else if k < 74 then "starlink" else if k < 80 then "sbirs" else if k < 90 then "wgs" else "nro"
  }

  /** 98 satellites; satellite k carries identifier SAT-(k+1) and belongs to the k-th position's block. */
  lemma GeneratedIds(random: nat -> real)
    ensures |Generated(random)| == 98
    ensures forall k :: 0 <= k < 98 ==> Generated(random)[k].id == SatelliteId(k + 1)
  {
    GeneratedHead(random, 0);
    forall k | 0 <= k < 98
      ensures Generated(random)[k].id == SatelliteId(k + 1)
    {
      GeneratedHead(random, k);
    }
  }

  /** The 98 identifiers are pairwise different. */
  lemma GeneratedIdsDistinct(random: nat -> real)
    ensures |Generated(random)| == 98
    ensures forall j, k :: 0 <= j < 98 && 0 <= k < 98 && j != k ==> Generated(random)[j].id != Generated(random)[k].id
  {
    GeneratedIds(random);
    NumberedIdsDistinct(Generated(random));
  }

  /** Satellites numbered 1, 2, ... in list order carry pairwise different identifiers. */
  lemma NumberedIdsDistinct(sats: seq<Satellite>)
    requires forall k :: 0 <= k < |sats| ==> sats[k].id == SatelliteId(k + 1)
    ensures forall j, k :: 0 <= j < |sats| && 0 <= k < |sats| && j != k ==> sats[j].id != sats[k].id
  {
    forall j, k | 0 <= j < |sats| && 0 <= k < |sats| && j != k
      ensures sats[j].id != sats[k].id
    {
      SatelliteIdInjective(j + 1, k + 1);
    }
  }

  /** The blocks come in the generator's order: 24 GPS, 50 Starlink, 6 SBIRS, 10 WGS and 8 NRO satellites. */
  lemma GeneratedBlocks(random: nat -> real)
    ensures |Generated(random)| == 98
    ensures forall k :: 0 <= k < 98 ==> Generated(random)[k].constellation == BlockConstellation(k)
    ensures forall k :: 0 <= k < 98 ==> Generated(random)[k].orbitType == BlockOrbitType(k)
  {
    GeneratedHead(random, 0);
    forall k | 0 <= k < 98
      ensures Generated(random)[k].constellation == BlockConstellation(k)
      ensures Generated(random)[k].orbitType == BlockOrbitType(k)
    {
      GeneratedHead(random, k);
    }
  }

  /** Each block's orbit type is the one the constellation table gives for the block's constellation. */
  lemma TableOrbitTypes(k: nat)
    requires k < 98
    ensures OrbitTypeOf(Constellations, BlockConstellation(k)) == Some(BlockOrbitType(k))
  {
    ConstellationTable();
    ConstellationIdsDistinct();
    var i := if k < 24 then 0 else if k < 74 then 1 else if k < 80 then 2 else if k < 90 then 3 else 4;
    assert ConstellationIds(Constellations)[i] == BlockConstellation(k);
    assert Constellations[i].orbitType == BlockOrbitType(k);
    LookupDistinct(Constellations, i);
  }

  /** When identifiers are unique, looking up an entry's identifier finds that entry's orbit type. */
  lemma LookupDistinct(cs: seq<Constellation>, i: nat)
    requires i < |cs| && Distinct(ConstellationIds(cs))
    ensures OrbitTypeOf(cs, cs[i].id) == Some(cs[i].orbitType)
  {
    var ids := ConstellationIds(cs);
    var r := OrbitTypeOf(cs, cs[i].id);
    assert r.Some?;
    var j :| 0 <= j < |cs| && cs[j].id == cs[i].id && cs[j].orbitType == r.value;
    assert ids[j] == ids[i];
    assert j == i;
  }

  /** Every generated satellite has the orbit type its constellation's table entry declares. */
  lemma GeneratedOrbitTypes(random: nat -> real)
    ensures |Generated(random)| == 98
    ensures forall k :: 0 <= k < 98 ==>
      OrbitTypeOf(Constellations, Generated(random)[k].constellation) == Some(Generated(random)[k].orbitType)
  {
    GeneratedBlocks(random);
    forall k | 0 <= k < 98
      ensures OrbitTypeOf(Constellations, Generated(random)[k].constellation) == Some(Generated(random)[k].orbitType)
    {
      TableOrbitTypes(k);
    }
  }

  /** GPS satellite i sits in plane i / 4 (0..5), slot i % 4 (0..3), at most 10 degrees past its slot. */
  lemma GpsPlanes(random: nat -> real, k: nat)
    requires UnitDraws(random) && k < 24
    ensures |Generated(random)| == 98
    ensures 0 <= k / 4 < 6 && 0 <= k % 4 < 4
    ensures var s := Generated(random)[k]; var base := ((k / 4) * 60 + (k % 4) * 15) as real;
      && base <= s.position.lng < base + 10.0
      && -55.0 <= s.position.lat < 55.0
      && (s.status == Operational <==> random(5 * k) > 0.1)
      && (s.status == Operational || s.status == Degraded)
  {
    GeneratedGps(random, k);
    assert 0.0 <= random(5 * k + 3) < 1.0;
    assert 0.0 <= random(5 * k + 4) < 1.0;
  }

  /** Starlink satellites fly at 550 km and lie within 53 degrees of the equator. */
  lemma StarlinkBounds(random: nat -> real, k: nat)
    requires UnitDraws(random) && 24 <= k < 74
    ensures var s := Generated(random)[k];
      && -53.0 <= s.position.lat < 53.0
      && -180.0 <= s.position.lng < 180.0
      && s.altitude == 550.0 && s.inclination == 53.0 && s.orbitType == LEO
  {
    GeneratedStarlink(random, k);
    var c := StarlinkStart(random, k - 24);
    var d := StarlinkStatusDraws(random, c);
    assert 0.0 <= random(c + d + 2) < 1.0;
    assert 0.0 <= random(c + d + 3) < 1.0;
  }

  /** SBIRS and WGS satellites are operational equatorial geostationary satellites at their table longitudes. */
  lemma GeostationaryFixed(random: nat -> real, k: nat)
    requires 74 <= k < 90
    ensures var s := Generated(random)[k];
      && s.position.lat == 0.0 && s.inclination == 0.0
      && s.altitude == 35786.0 && s.position.alt == 35786.0
      && s.status == Operational && s.orbitType == GEO
      && (k < 80 ==> s.position.lng == SbirsPositions[k - 74])
      && (k >= 80 ==> s.position.lng == WgsPositions[k - 80])
  {
    if k < 80 {
      GeneratedSbirs(random, k);
    } else {
      GeneratedWgs(random, k);
    }
  }

  /** NRO satellites: altitude in [250, 550), inclination in [97, 103), period in [90, 100). */
  lemma NroBounds(random: nat -> real, k: nat)
    requires UnitDraws(random) && 90 <= k < 98
    ensures var s := Generated(random)[k];
      && 250.0 <= s.altitude < 550.0
      && 97.0 <= s.inclination < 103.0
      && 90.0 <= s.period < 100.0
      && 250.0 <= s.position.alt < 550.0
      && s.status == Operational
  {
    GeneratedNro(random, k);
    var c := NroStart(random) + 8 * (k - 90);
    assert 0.0 <= random(c) < 1.0 && 0.0 <= random(c + 1) < 1.0;
    assert 0.0 <= random(c + 2) < 1.0 && 0.0 <= random(c + 7) < 1.0;
  }

  // ---------------------------------------------------------------- stations, links, statistics

  const GroundStations: seq<GroundStation> := [
    GroundStation("GS-001", "Schriever AFB", Location(38.8, -104.5), Both, Online, ["SAT-0001", "SAT-0002", "SAT-0003"]),
    GroundStation("GS-002", "Diego Garcia", Location(-7.3, 72.4), Both, Online, ["SAT-0004", "SAT-0005"]),
    GroundStation("GS-003", "Kwajalein", Location(9.0, 167.7), Both, Online, ["SAT-0006", "SAT-0007"]),
    GroundStation("GS-004", "Ascension Island", Location(-7.9, -14.4), Both, Online, ["SAT-0008"]),
    GroundStation("GS-005", "Cape Canaveral", Location(28.5, -80.6), Both, Online, ["SAT-0010", "SAT-0011"]),
    GroundStation("GS-006", "Vandenberg SFB", Location(34.7, -120.6), Both, Online, ["SAT-0012", "SAT-0013"]),
    GroundStation("GS-007", "Pine Gap", Location(-23.8, 133.7), Downlink, Online, ["SAT-0075", "SAT-0076"]),
    GroundStation("GS-008", "Buckley SFB", Location(39.7, -104.8), Downlink, Maintenance, [])
  ]

  const CommunicationLinks: seq<CommunicationLink> := [
    CommunicationLink("LINK-001", "SAT-0001", "GS-001", SatelliteGround, 95.0, 120.0, 1200.0, Active),
    CommunicationLink("LINK-002", "SAT-0025", "SAT-0026", InterSatellite, 88.0, 5.0, 10000.0, Active),
    CommunicationLink("LINK-003", "SAT-0075", "GS-007", SatelliteGround, 72.0, 45.0, 5000.0, LinkDegraded)
  ]

  predicate IsOperational(s: Satellite) {
    s.status == Operational
  }

  predicate IsOnline(g: GroundStation) {
    g.status == Online
  }

  predicate IsActive(l: CommunicationLink) {
    l.status == Active
  }

  /** dashboardStats: list lengths and `filter(...).length` counts, plus two fixed figures. */
  function DashboardStatsOf(sats: seq<Satellite>, stations: seq<GroundStation>, links: seq<CommunicationLink>): (d: DashboardStats)
    ensures d.totalSatellites == |sats|
    ensures d.operationalSatellites <= d.totalSatellites
    ensures d.operationalSatellites == d.totalSatellites <==> forall i :: 0 <= i < |sats| ==> sats[i].status == Operational
    ensures d.groundStations <= |stations| && d.activeLinks <= |links|
    ensures d.operationalSatellites == |Filter(sats, IsOperational)|
    ensures d.groundStations == |Filter(stations, IsOnline)|
    ensures d.activeLinks == |Filter(links, IsActive)|
    ensures d.globalCoverage == 94.7 && d.averageLatency == 45.0
  {
    DashboardStats(|sats|, Count(sats, IsOperational), Count(stations, IsOnline), Count(links, IsActive), 94.7, 45.0)
  }

  /** Seven of the eight ground stations are online (GS-008 is in maintenance). */
  lemma OnlineStationCount()
    ensures Count(GroundStations, IsOnline) == 7
  {
  }

  /** Two of the three links are active (LINK-003 is degraded). */
  lemma ActiveLinkCount()
    ensures Count(CommunicationLinks, IsActive) == 2
  {
  }

  /** At least `b - a` elements satisfy `p` when all of `s[a..b]` do. */
  lemma {:induction false} CountOfRun<T>(s: seq<T>, a: nat, b: nat, p: T -> bool)
    requires a <= b <= |s|
    requires forall i :: a <= i < b ==> p(s[i])
    ensures Count(s, p) >= b - a
  {
    assert s == s[..a] + s[a..b] + s[b..];
    CountAppend(s[..a] + s[a..b], s[b..], p);
    CountAppend(s[..a], s[a..b], p);
    assert forall i :: 0 <= i < |s[a..b]| ==> p(s[a..b][i]);
  }

  /** The dashboard over the generated list: 98 satellites, of which the 24 fixed-status ones at least are operational. */
  lemma GeneratedDashboard(random: nat -> real)
    ensures var d := DashboardStatsOf(Generated(random), GroundStations, CommunicationLinks);
      && d.totalSatellites == 98
      && 24 <= d.operationalSatellites <= 98
      && d.groundStations == 7
      && d.activeLinks == 2
  {
    var sats := Generated(random);
    GeneratedNro(random, 90);
    forall i | 74 <= i < 98
      ensures IsOperational(sats[i])
    {
      if i < 80 {
        GeneratedSbirs(random, i);
      } else if i < 90 {
        GeneratedWgs(random, i);
      } else {
        GeneratedNro(random, i);
      }
    }
    CountOfRun(sats, 74, 98, IsOperational);
    OnlineStationCount();
    ActiveLinkCount();
  }
}
