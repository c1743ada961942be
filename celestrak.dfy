/**
 * The CelesTrak client: splitting a NORAD Two-Line Element (TLE) feed into records, reading the
 * fixed-column fields of a record, the derived orbit metrics, and the one-hour cache in front of
 * the network.
 *
 * The decimal `parseInt`/`parseFloat` used on the columns are parameters (`None` is `NaN`); the
 * network response and the clock readings of one fetch are given as a `FetchAttempt`.
 */
module CelestrakApi {
  import opened Wrappers
  import opened JsText
  import opened Sequences
  import Types

  /** One satellite of a feed: the name line, the two element lines, the catalogue number. */
  datatype TleData = TleData(name: string, line1: string, line2: string, noradId: string)

  /** The fields of a record; a numeric field is `None` where the parse gives `NaN`. */
  datatype ParsedTle = ParsedTle(
    name: string,
    noradId: string,
    classification: string,
    launchYear: Option<int>,
    launchNumber: Option<int>,
    inclination: Option<real>,
    raan: Option<real>,
    eccentricity: Option<real>,
    argOfPerigee: Option<real>,
    meanAnomaly: Option<real>,
    meanMotion: Option<real>,
    revolutionNumber: Option<int>,
    line1: string,
    line2: string)

  /** The CelesTrak groups the client knows. */
  datatype ConstellationGroup =
    | Gps | Glonass | Galileo | Beidou | Starlink | OneWeb | Iridium | Weather
    | Noaa | Geo | Intelsat | Ses | Iss | Military | Science | EarthResources

  /** A character that goes into a query string as it is. */
  predicate IsQueryChar(c: char) {
    'a' <= c <= 'z' || 'A' <= c <= 'Z' || c == '-'
  }

  /** The GROUP parameter CelesTrak expects for a group; also the cache key. It is never empty
      and needs no escaping in the request URL. */
  function GroupId(g: ConstellationGroup): (id: string)
    ensures id != "" && forall i :: 0 <= i < |id| ==> IsQueryChar(id[i])
  {
    match g
    case Gps => "gps-ops"
    case Glonass => "glo-ops"
    case Galileo => "galileo"
    case Beidou => "beidou"
    case Starlink => "starlink"
    case OneWeb => "oneweb"
    case Iridium => "iridium-NEXT"
    case Weather => "weather"
    case Noaa => "noaa"
    case Geo => "geo"
    case Intelsat => "intelsat"
    case Ses => "ses"
    case Iss => "stations"
    case Military => "military"
    case Science => "science"
    case EarthResources => "resource"
  }

  /** Different groups never share a cache key. */
  lemma GroupIdInjective(a: ConstellationGroup, b: ConstellationGroup)
    ensures GroupId(a) == GroupId(b) ==> a == b
  {
  }

  // ---------------------------------------------------------------- feed splitting

  /** The lines of a feed body: trimmed as a whole, then cut at every line feed. */
  function Lines(text: string): seq<string> {
    Split(Trim(text))
  }

  /**
   * The catalogue number: columns 3-7 of line 1, trimmed. A short line gives a short or empty
   * number, never an error.
   */
  function NoradId(line1: string): (id: string)
    ensures |id| <= 5 && IsTrimmed(id)
    ensures |line1| <= 2 ==> id == ""
    ensures |line1| >= 7 ==> id == Trim(line1[2..7])
    ensures 2 < |line1| < 7 ==> id == Trim(line1[2..])
  {
    Trim(Substring(line1, 2, 7))
  }

  /** The record built from one name line and two element lines. */
  function GroupRecord(nameLine: string, elementLine1: string, elementLine2: string): TleData {
    var line1 := Trim(elementLine1);
    TleData(Trim(nameLine), line1, Trim(elementLine2), NoradId(line1))
  }

  /** The records of a list of lines: consecutive groups of three, an incomplete tail ignored. */
  function TleGroups(lines: seq<string>): seq<TleData> {
    MapTriples(lines, GroupRecord)
  }

  /**
   * n lines give exactly n / 3 records; record k comes from lines 3k, 3k+1 and 3k+2, in input
   * order, and one or two trailing lines are dropped.
   */
  lemma TleGroupsLayout(lines: seq<string>)
    ensures |TleGroups(lines)| == |lines| / 3
    ensures forall k :: 0 <= k < |lines| / 3 ==>
      TleGroups(lines)[k] == GroupRecord(lines[3 * k], lines[3 * k + 1], lines[3 * k + 2])
  {
    MapTriplesLength(lines, GroupRecord);
    forall k | 0 <= k < |lines| / 3
      ensures TleGroups(lines)[k] == GroupRecord(lines[3 * k], lines[3 * k + 1], lines[3 * k + 2])
    {
      assert 3 * k + 2 < |lines|;
      MapTriplesAt(lines, GroupRecord, k);
    }
  }

  /** The records of a feed body. */
  function ParseFeed(text: string): seq<TleData> {
    TleGroups(Lines(text))
  }

  /** parseTLEText: walks the lines three at a time and stops before an incomplete group. */
  method ParseTleText(text: string) returns (satellites: seq<TleData>)
    ensures satellites == TleGroups(Lines(text))
  {
    var lines := Lines(text);
    satellites := [];
    var i := 0;
    while i < |lines|
      invariant 0 <= i <= |lines|
      invariant satellites + TleGroups(lines[i..]) == TleGroups(lines)
      decreases |lines| - i
    {
      if i + 2 >= |lines| {
        break;
      }
      var name := Trim(lines[i]);
      var line1 := Trim(lines[i + 1]);
      var line2 := Trim(lines[i + 2]);
      var noradId := Trim(Substring(line1, 2, 7));
      var record := TleData(name, line1, line2, noradId);
      assert record == GroupRecord(lines[i], lines[i + 1], lines[i + 2]);
      var tail := lines[i..];
      assert tail[0] == lines[i] && tail[1] == lines[i + 1] && tail[2] == lines[i + 2];
      assert tail[3..] == lines[i + 3..];
      MapTriplesStep(tail, GroupRecord);
      var later := TleGroups(lines[i + 3..]);
      assert TleGroups(lines[i..]) == [record] + later;
      AppendAssociative(satellites, [record], later);
      satellites := satellites + [record];
      i := i + 3;
    }
  }

  /** The feed text of a list of records, three lines each. */
  function RecordLines(records: seq<TleData>): (lines: seq<string>)
    ensures |lines| == 3 * |records|
  {
    if records == [] then []
    else [records[0].name, records[0].line1, records[0].line2] + RecordLines(records[1..])
  }

  function Render(records: seq<TleData>): string {
    if records == [] then "" else Join(RecordLines(records))
  }

  /** A line as a feed carries it: non-empty, trimmed, no line feed inside. */
  predicate IsFeedLine(s: string) {
    s != "" && IsTrimmed(s) && '\n' !in s
  }

  predicate HasFeedLines(r: TleData) {
    IsFeedLine(r.name) && IsFeedLine(r.line1) && IsFeedLine(r.line2)
  }

  /** What a record read from a feed looks like. */
  predicate WellFormedRecord(r: TleData) {
    HasFeedLines(r) && r.noradId == NoradId(r.line1)
  }

  lemma {:induction false} RecordLinesWellFormed(records: seq<TleData>)
    requires forall i :: 0 <= i < |records| ==> HasFeedLines(records[i])
    ensures forall j :: 0 <= j < |RecordLines(records)| ==> IsFeedLine(RecordLines(records)[j])
  {
    if records != [] {
      assert forall i :: 0 <= i < |records| - 1 ==> records[1..][i] == records[i + 1];
      RecordLinesWellFormed(records[1..]);
      var lines := RecordLines(records);
      var tail := RecordLines(records[1..]);
      forall j | 3 <= j < |lines|
        ensures IsFeedLine(lines[j])
      {
        assert lines[j] == tail[j - 3];
      }
    }
  }

  /** Feed lines are non-empty, trimmed and free of line feeds, as joining and splitting need. */
  lemma FeedLinesPlain(lines: seq<string>)
    requires forall j :: 0 <= j < |lines| ==> IsFeedLine(lines[j])
    ensures forall j :: 0 <= j < |lines| ==> lines[j] != [] && IsTrimmed(lines[j]) && '\n' !in lines[j]
  {
  }

  lemma {:induction false} RecordLinesRegroup(records: seq<TleData>)
    requires forall i :: 0 <= i < |records| ==> WellFormedRecord(records[i])
    ensures TleGroups(RecordLines(records)) == records
  {
    if records != [] {
      var r := records[0];
      RecordLinesRegroup(records[1..]);
      var lines := RecordLines(records);
      DropPrefix([r.name, r.line1, r.line2], RecordLines(records[1..]));
      MapTriplesStep(lines, GroupRecord);
      TrimOfTrimmed(r.name);
      TrimOfTrimmed(r.line1);
      TrimOfTrimmed(r.line2);
      assert GroupRecord(lines[0], lines[1], lines[2]) == r;
      HeadTail(records);
    }
  }

  /**
   * Rendering well-formed records as a feed and parsing it back gives the same records: the
   * fixed-offset extraction reads the same fields again.
   */
  lemma ParseRenderRoundTrip(records: seq<TleData>)
    requires forall i :: 0 <= i < |records| ==> WellFormedRecord(records[i])
    ensures TleGroups(Lines(Render(records))) == records
  {
    if records != [] {
      var lines := RecordLines(records);
      assert forall i :: 0 <= i < |records| ==> HasFeedLines(records[i]);
      RecordLinesWellFormed(records);
      FeedLinesPlain(lines);
      RecordLinesRegroup(records);
      JoinTrimmed(lines);
      TrimOfTrimmed(Join(lines));
      SplitJoin(lines);
    }
  }

  // ---------------------------------------------------------------- field extraction

  /**
   * parseTLEDetails: reads the fields at their fixed 0-based offsets (the format's 1-based
   * columns) and copies the name, catalogue number and lines through.
   */
  function ParseTleDetails(tle: TleData, parseInt: string -> Option<int>, parseFloat: string -> Option<real>): (p: ParsedTle)
    ensures p.name == tle.name && p.noradId == tle.noradId
    ensures p.line1 == tle.line1 && p.line2 == tle.line2
    ensures |p.classification| <= 1
  {
    var line1 := tle.line1;
    var line2 := tle.line2;
    ParsedTle(
      tle.name,
      tle.noradId,
      CharAt(line1, 7),
      parseInt(Substring(line1, 9, 11)),
      parseInt(Substring(line1, 11, 14)),
      parseFloat(Substring(line2, 8, 16)),
      parseFloat(Substring(line2, 17, 25)),
      parseFloat("0." + Substring(line2, 26, 33)),
      parseFloat(Substring(line2, 34, 42)),
      parseFloat(Substring(line2, 43, 51)),
      parseFloat(Substring(line2, 52, 63)),
      parseInt(Substring(line2, 63, 68)),
      line1,
      line2)
  }

  /**
   * On full-width lines every field is the parse of exactly its columns: line 1 columns 8,
   * 10-11, 12-14; line 2 columns 9-16, 18-25, 27-33, 35-42, 44-51, 53-63, 64-68.
   */
  lemma FullWidthColumns(tle: TleData, parseInt: string -> Option<int>, parseFloat: string -> Option<real>)
    requires |tle.line1| >= 14 && |tle.line2| >= 68
    ensures var p := ParseTleDetails(tle, parseInt, parseFloat);
      && p.classification == [tle.line1[7]]
      && p.launchYear == parseInt(tle.line1[9..11])
      && p.launchNumber == parseInt(tle.line1[11..14])
      && p.inclination == parseFloat(tle.line2[8..16])
      && p.raan == parseFloat(tle.line2[17..25])
      && p.eccentricity == parseFloat("0." + tle.line2[26..33])
      && p.argOfPerigee == parseFloat(tle.line2[34..42])
      && p.meanAnomaly == parseFloat(tle.line2[43..51])
      && p.meanMotion == parseFloat(tle.line2[52..63])
      && p.revolutionNumber == parseInt(tle.line2[63..68])
  {
  }

  /** Lines are not length-checked: fields past the end of a short line 2 are parses of "". */
  lemma ShortLine2(tle: TleData, parseInt: string -> Option<int>, parseFloat: string -> Option<real>)
    requires |tle.line2| <= 52
    ensures var p := ParseTleDetails(tle, parseInt, parseFloat);
      p.meanMotion == parseFloat("") && p.revolutionNumber == parseInt("")
  {
  }

  /** Only the two element lines decide the fields: re-reading a record's own lines changes nothing. */
  lemma DetailsDependOnLines(tle: TleData, parseInt: string -> Option<int>, parseFloat: string -> Option<real>)
    ensures var again := GroupRecord(tle.name, tle.line1, tle.line2);
      var p := ParseTleDetails(tle, parseInt, parseFloat);
      var q := ParseTleDetails(again, parseInt, parseFloat);
      IsTrimmed(tle.line1) && IsTrimmed(tle.line2) ==>
        q == p.(name := Trim(tle.name), noradId := NoradId(tle.line1))
  {
    if IsTrimmed(tle.line1) && IsTrimmed(tle.line2) {
      TrimOfTrimmed(tle.line1);
      TrimOfTrimmed(tle.line2);
    }
  }

  lemma FractionBelowOne(v: real, p: real)
    requires 0.0 <= v < p
    ensures 0.0 <= v / p < 1.0
  {
    var x := v / p;
    assert x * p == v;
  }

  /** The number "0.d" written by a non-empty digit string d. */
  function DecimalFraction(d: string): (x: real)
    requires d != []
    ensures 0.0 <= x < 1.0
  {
    var v := DigitsValue(d);
    var p := Pow(10, |d|);
    FractionBelowOne(v as real, p as real);
    v as real / p as real
  }

  /** A `parseFloat` that reads "0." followed by digits as the exact decimal fraction. */
  ghost predicate ReadsDecimalFractions(parseFloat: string -> Option<real>) {
    forall d :: d != [] && AllDigits(d) ==> parseFloat("0." + d) == Some(DecimalFraction(d))
  }

  /** The eccentricity column, read behind an implied "0.", lies in [0, 1) when it holds digits. */
  lemma EccentricityInUnitInterval(tle: TleData, parseInt: string -> Option<int>, parseFloat: string -> Option<real>)
    requires ReadsDecimalFractions(parseFloat)
    requires |tle.line2| >= 33 && AllDigits(tle.line2[26..33])
    ensures var e := ParseTleDetails(tle, parseInt, parseFloat).eccentricity;
      e.Some? && 0.0 <= e.value < 1.0
  {
    var d := tle.line2[26..33];
    assert Substring(tle.line2, 26, 33) == d;
    assert parseFloat("0." + d) == Some(DecimalFraction(d));
  }

  // ---------------------------------------------------------------- orbit metrics

  const MinutesPerDay: real := 24.0 * 60.0
  const EarthRadiusKm: real := 6371.0

  /**
   * calculateOrbitalPeriod: minutes per revolution, 1440 / meanMotion. `None` is the non-finite
   * quotient JavaScript gives for a zero mean motion.
   */
  function OrbitalPeriod(meanMotion: real): (period: Option<real>)
    ensures period.Some? <==> meanMotion != 0.0
    ensures period.Some? ==> period.value * meanMotion == MinutesPerDay
    ensures meanMotion > 0.0 ==> period.Some? && period.value > 0.0
  {
    if meanMotion == 0.0 then None else Some(MinutesPerDay / meanMotion)
  }

  /**
   * estimateAltitude: the semi-major axis (given by `semiMajorAxis`, the floating-point
   * two-body formula) less the Earth's radius, floored at zero.
   */
  function EstimateAltitude(meanMotion: real, semiMajorAxis: real -> real): (altitude: real)
    ensures altitude >= 0.0
    ensures altitude >= semiMajorAxis(meanMotion) - EarthRadiusKm
    ensures altitude == 0.0 || altitude == semiMajorAxis(meanMotion) - EarthRadiusKm
  {
    var a := semiMajorAxis(meanMotion);
    if 0.0 >= a - EarthRadiusKm then 0.0 else a - EarthRadiusKm
  }

  /** getOrbitType: a total classification of an altitude in km. */
  function GetOrbitType(altitude: real): (t: Types.OrbitType)
    ensures t == Types.LEO <==> altitude < 2000.0
    ensures t == Types.MEO <==> 2000.0 <= altitude < 35786.0
    ensures t == Types.GEO <==> 35786.0 <= altitude <= 35800.0
    ensures t == Types.HEO <==> altitude > 35800.0
  {
    if altitude < 2000.0 then Types.LEO
    else if altitude < 35786.0 then Types.MEO
    else if altitude >= 35786.0 && altitude <= 35800.0 then Types.GEO
    else Types.HEO
  }

  // ---------------------------------------------------------------- cache

  /** Freshness window of a cache entry: one hour, in milliseconds. */
  const CacheDuration: int := 60 * 60 * 1000

  datatype CacheEntry = CacheEntry(data: seq<TleData>, timestamp: int)

  /** What the network gives for one request: a response with its `ok` flag, or a thrown error. */
  datatype HttpOutcome = Response(ok: bool, status: int, body: string) | NetworkError

  /** One call of fetchConstellation: the clock at the cache check, the response, the clock when it is stored. */
  datatype FetchAttempt = FetchAttempt(now: int, outcome: HttpOutcome, completedAt: int)

  /** The records, or the error fetchConstellation rethrows. */
  datatype FetchResult = Loaded(data: seq<TleData>) | Failed

  datatype FetchStep = FetchStep(cache: map<string, CacheEntry>, result: FetchResult, fetched: bool)

  predicate IsFresh(cache: map<string, CacheEntry>, key: string, now: int) {
    key in cache && now - cache[key].timestamp < CacheDuration
  }

  /**
   * What fetchConstellation does to the cache and returns. A fresh entry is returned without a
   * network call; otherwise a successful response replaces that group's entry wholesale, and a
   * failure leaves the cache as it was and is rethrown. `parse` reads a response body
   * (`ParseFeed` in the service).
   */
  function FetchStepOf(cache: map<string, CacheEntry>, group: ConstellationGroup, a: FetchAttempt, parse: string -> seq<TleData>): (step: FetchStep)
    ensures !step.fetched <==> IsFresh(cache, GroupId(group), a.now)
    ensures !step.fetched ==> step.cache == cache && step.result == Loaded(cache[GroupId(group)].data)
    ensures step.fetched ==> (step.result.Loaded? <==> a.outcome.Response? && a.outcome.ok)
    ensures step.fetched && step.result.Loaded? ==>
      step.result.data == parse(a.outcome.body)
      && step.cache == cache[GroupId(group) := CacheEntry(step.result.data, a.completedAt)]
    ensures step.result.Failed? ==> step.cache == cache
    ensures forall k :: k != GroupId(group) ==> (k in step.cache <==> k in cache)
    ensures forall k :: k != GroupId(group) && k in cache ==> step.cache[k] == cache[k]
  {
    var key := GroupId(group);
    if IsFresh(cache, key, a.now) then FetchStep(cache, Loaded(cache[key].data), false)
    else match a.outcome
      case NetworkError => FetchStep(cache, Failed, true)
      case Response(ok, _, body) =>
        if !ok then FetchStep(cache, Failed, true)
        else
          var data := parse(body);
          FetchStep(cache[key := CacheEntry(data, a.completedAt)], Loaded(data), true)
  }

  /**
   * A second fetch of a group inside the window of a successful first one returns the same
   * records and makes no network call.
   */
  lemma RefetchWithinWindow(cache: map<string, CacheEntry>, group: ConstellationGroup, first: FetchAttempt, second: FetchAttempt, parse: string -> seq<TleData>)
    requires FetchStepOf(cache, group, first, parse).fetched && FetchStepOf(cache, group, first, parse).result.Loaded?
    requires second.now - first.completedAt < CacheDuration
    ensures var s1 := FetchStepOf(cache, group, first, parse);
      FetchStepOf(s1.cache, group, second, parse) == FetchStep(s1.cache, s1.result, false)
  {
  }

  /** The records of one group's fetch as fetchMultipleConstellations stores them: [] for a failure. */
  function Payload(r: FetchResult): seq<TleData> {
    if r.Loaded? then r.data else []
  }

  datatype BatchState = BatchState(cache: map<string, CacheEntry>, results: map<ConstellationGroup, seq<TleData>>)

  /** The cache keys of a list of requested groups. */
  function GroupIds(groups: seq<ConstellationGroup>): set<string>
    decreases |groups|
  {
    if groups == [] then {} else GroupIds(groups[..|groups| - 1]) + {GroupId(groups[|groups| - 1])}
  }

  /**
   * fetchMultipleConstellations, one group after the other: each group's result, [] for a
   * failure, is stored under the group, and the cache goes through each group's fetch in turn.
   */
  function FetchBatch(cache: map<string, CacheEntry>, groups: seq<ConstellationGroup>, attempts: seq<FetchAttempt>, parse: string -> seq<TleData>): BatchState
    requires |attempts| == |groups|
    decreases |groups|
  {
    if groups == [] then BatchState(cache, map[])
    else
      var n := |groups| - 1;
      var before := FetchBatch(cache, groups[..n], attempts[..n], parse);
      var step := FetchStepOf(before.cache, groups[n], attempts[n], parse);
      BatchState(step.cache, before.results[groups[n] := Payload(step.result)])
  }

  /** Every requested group gets a result, and no other group does: nothing escapes the batch. */
  lemma {:induction false} BatchKeys(cache: map<string, CacheEntry>, groups: seq<ConstellationGroup>, attempts: seq<FetchAttempt>, parse: string -> seq<TleData>)
    requires |attempts| == |groups|
    ensures FetchBatch(cache, groups, attempts, parse).results.Keys == set g | g in groups
    decreases |groups|
  {
    if groups != [] {
      var n := |groups| - 1;
      BatchKeys(cache, groups[..n], attempts[..n], parse);
      assert groups == groups[..n] + [groups[n]];
      assert (set g | g in groups) == (set g | g in groups[..n]) + {groups[n]};
    }
  }

  /** Cache entries of groups that were not requested are left as they were. */
  lemma {:induction false} BatchLeavesOthers(cache: map<string, CacheEntry>, groups: seq<ConstellationGroup>, attempts: seq<FetchAttempt>, parse: string -> seq<TleData>)
    requires |attempts| == |groups|
    ensures var c := FetchBatch(cache, groups, attempts, parse).cache;
      forall k :: k !in GroupIds(groups) ==> (k in c <==> k in cache) && (k in cache ==> c[k] == cache[k])
    decreases |groups|
  {
    if groups != [] {
      var n := |groups| - 1;
      BatchLeavesOthers(cache, groups[..n], attempts[..n], parse);
    }
  }

  lemma {:induction false} GroupIdsOnlyMembers(groups: seq<ConstellationGroup>, k: string)
    requires forall j :: 0 <= j < |groups| ==> GroupId(groups[j]) != k
    ensures k !in GroupIds(groups)
    decreases |groups|
  {
    if groups != [] {
      var n := |groups| - 1;
      assert GroupId(groups[n]) != k;
      forall j | 0 <= j < n
        ensures GroupId(groups[..n][j]) != k
      {
        assert groups[..n][j] == groups[j];
      }
      GroupIdsOnlyMembers(groups[..n], k);
    }
  }

  /** One step of the batch: the last group's payload goes in over what the earlier groups gave. */
  lemma BatchUnfold(cache: map<string, CacheEntry>, groups: seq<ConstellationGroup>, attempts: seq<FetchAttempt>, parse: string -> seq<TleData>)
    requires |attempts| == |groups| && groups != []
    ensures var n := |groups| - 1;
      var before := FetchBatch(cache, groups[..n], attempts[..n], parse);
      var step := FetchStepOf(before.cache, groups[n], attempts[n], parse);
      FetchBatch(cache, groups, attempts, parse).results == before.results[groups[n] := Payload(step.result)]
  {
  }

  /** One more request extends the batch over a prefix of the groups by one fetch step. */
  lemma BatchPrefixStep(cache: map<string, CacheEntry>, groups: seq<ConstellationGroup>, attempts: seq<FetchAttempt>, parse: string -> seq<TleData>, i: nat)
    requires |attempts| == |groups| && i < |groups|
    ensures var before := FetchBatch(cache, groups[..i], attempts[..i], parse);
      var step := FetchStepOf(before.cache, groups[i], attempts[i], parse);
      FetchBatch(cache, groups[..i + 1], attempts[..i + 1], parse)
        == BatchState(step.cache, before.results[groups[i] := Payload(step.result)])
  {
    assert groups[..i + 1][..i] == groups[..i];
    assert attempts[..i + 1][..i] == attempts[..i];
  }

  /** The result of a group is the outcome of its last request, against the cache as it was then. */
  lemma {:induction false} BatchLastRequest(cache: map<string, CacheEntry>, groups: seq<ConstellationGroup>, attempts: seq<FetchAttempt>, parse: string -> seq<TleData>, i: nat)
    requires |attempts| == |groups| && i < |groups|
    requires forall j :: i < j < |groups| ==> groups[j] != groups[i]
    ensures var results := FetchBatch(cache, groups, attempts, parse).results;
      && groups[i] in results
      && results[groups[i]]
        == Payload(FetchStepOf(FetchBatch(cache, groups[..i], attempts[..i], parse).cache, groups[i], attempts[i], parse).result)
    decreases |groups|
  {
    var n := |groups| - 1;
    BatchUnfold(cache, groups, attempts, parse);
    var before := FetchBatch(cache, groups[..n], attempts[..n], parse).results;
    var v := Payload(FetchStepOf(FetchBatch(cache, groups[..n], attempts[..n], parse).cache, groups[n], attempts[n], parse).result);
    assert FetchBatch(cache, groups, attempts, parse).results == before[groups[n] := v];
    if i < n {
      assert groups[n] != groups[i];
      PrefixOfPrefix(groups, n, i);
      PrefixOfPrefix(attempts, n, i);
      assert groups[..n][i] == groups[i] && attempts[..n][i] == attempts[i];
      BatchLastRequest(cache, groups[..n], attempts[..n], parse, i);
      assert FetchBatch(cache, groups, attempts, parse).results[groups[i]] == before[groups[i]];
    }
  }

  /**
   * With distinct groups (as the client is called), each group's result is what a lone fetch of
   * that group from the starting cache gives: fresh entries are served, failures give [], and
   * the other groups make no difference, whatever order the requests complete in.
   */
  lemma BatchOfDistinctGroups(cache: map<string, CacheEntry>, groups: seq<ConstellationGroup>, attempts: seq<FetchAttempt>, parse: string -> seq<TleData>, i: nat)
    requires |attempts| == |groups| && i < |groups|
    requires Distinct(groups)
    ensures var results := FetchBatch(cache, groups, attempts, parse).results;
      groups[i] in results && results[groups[i]] == Payload(FetchStepOf(cache, groups[i], attempts[i], parse).result)
  {
    BatchLastRequest(cache, groups, attempts, parse, i);
    var prefix := groups[..i];
    var key := GroupId(groups[i]);
    forall j | 0 <= j < |prefix|
      ensures GroupId(prefix[j]) != key
    {
      assert prefix[j] == groups[j] && groups[j] != groups[i];
      GroupIdInjective(prefix[j], groups[i]);
    }
    GroupIdsOnlyMembers(prefix, key);
    BatchLeavesOthers(cache, prefix, attempts[..i], parse);
  }

  /** Distinct groups give exactly as many results as groups were requested. */
  lemma BatchSize(cache: map<string, CacheEntry>, groups: seq<ConstellationGroup>, attempts: seq<FetchAttempt>, parse: string -> seq<TleData>)
    requires |attempts| == |groups| && Distinct(groups)
    ensures |FetchBatch(cache, groups, attempts, parse).results| == |groups|
  {
    DistinctCardinality(groups);
    BatchKeys(cache, groups, attempts, parse);
  }

  /** CelesTrakService: the cache of fetched groups, keyed by group id. */
  class CelesTrakService {
    var cache: map<string, CacheEntry>

    constructor ()
      ensures cache == map[]
    {
      cache := map[];
    }

    /** fetchConstellation; `fetched` tells whether a network request was made. */
    method FetchConstellation(group: ConstellationGroup, a: FetchAttempt) returns (result: FetchResult, fetched: bool)
      modifies this
      ensures var step := FetchStepOf(old(cache), group, a, ParseFeed);
        cache == step.cache && result == step.result && fetched == step.fetched
    {
      var key := GroupId(group);
      if IsFresh(cache, key, a.now) {
        return Loaded(cache[key].data), false;
      }
      match a.outcome
      case NetworkError =>
        result, fetched := Failed, true;
      case Response(ok, _, body) =>
        if !ok {
          return Failed, true;
        }
        var tleData := ParseTleText(body);
        cache := cache[key := CacheEntry(tleData, a.completedAt)];
        result, fetched := Loaded(tleData), true;
    }

    /** fetchMultipleConstellations: one attempt per requested group, taken in list order. */
    method FetchMultipleConstellations(groups: seq<ConstellationGroup>, attempts: seq<FetchAttempt>)
      returns (results: map<ConstellationGroup, seq<TleData>>)
      requires |attempts| == |groups|
      modifies this
      ensures var b := FetchBatch(old(cache), groups, attempts, ParseFeed);
        cache == b.cache && results == b.results
    {
      results := map[];
      var i := 0;
      while i < |groups|
        invariant 0 <= i <= |groups|
        invariant FetchBatch(old(cache), groups[..i], attempts[..i], ParseFeed) == BatchState(cache, results)
      {
        BatchPrefixStep(old(cache), groups, attempts, ParseFeed, i);
        var r, _ := FetchConstellation(groups[i], attempts[i]);
        results := results[groups[i] := Payload(r)];
        i := i + 1;
      }
      assert groups[..i] == groups;
      assert attempts[..i] == attempts;
    }

    /** clearCache. */
    method ClearCache()
      modifies this
      ensures cache == map[]
    {
      cache := map[];
    }
  }
}
