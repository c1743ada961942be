/** The record shapes and enumerations of the application's shared type declarations. */
module Types {

  datatype OrbitType = LEO | MEO | GEO | HEO

  datatype SatelliteType = Communication | Navigation | Reconnaissance | Weather | Military

  datatype SatelliteStatus = Operational | Degraded | Offline

  /** Latitude and longitude in degrees, altitude in km. */
  datatype Position = Position(lat: real, lng: real, alt: real)

  /** A satellite; `kind` is the source's `type` field. The launch date is not modelled. */
  datatype Satellite = Satellite(
    id: string,
    name: string,
    constellation: string,
    kind: SatelliteType,
    orbitType: OrbitType,
    altitude: real,
    inclination: real,
    period: real,
    status: SatelliteStatus,
    position: Position,
    velocity: real)

  datatype StationType = Uplink | Downlink | Both

  datatype StationStatus = Online | StationOffline | Maintenance

  datatype Location = Location(lat: real, lng: real)

  datatype GroundStation = GroundStation(
    id: string,
    name: string,
    location: Location,
    kind: StationType,
    status: StationStatus,
    connectedSatellites: seq<string>)

  datatype Constellation = Constellation(
    id: string,
    name: string,
    description: string,
    color: string,
    satelliteCount: nat,
    orbitType: OrbitType,
    purpose: string)

  datatype LinkType = SatelliteGround | InterSatellite

  datatype LinkStatus = Active | LinkDegraded | Inactive

  datatype CommunicationLink = CommunicationLink(
    id: string,
    fromId: string,
    toId: string,
    kind: LinkType,
    signalStrength: real,
    latency: real,
    bandwidth: real,
    status: LinkStatus)

  datatype DashboardStats = DashboardStats(
    totalSatellites: nat,
    operationalSatellites: nat,
    groundStations: nat,
    activeLinks: nat,
    globalCoverage: real,
    averageLatency: real)
}
