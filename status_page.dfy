/** The public status page: a fixed table of platform services and of
    datacenters, an overall status aggregated from the services, a badge
    per status, and latency shown as a warning above a threshold. */
module StatusPage {
  datatype Service = Service(name: string, status: string, uptime: real, description: string)

  datatype Datacenter = Datacenter(name: string, status: string, latency: int)

  const Operational := "operational"
  const Degraded := "degraded"
  const Down := "down"

  const Services: seq<Service> := [
    Service("VPS Infrastructure", Operational, 99.98, "Virtual private server hosting platform"),
    Service("Control Panel", Operational, 99.95, "Web-based management interface"),
    Service("Database Services", Degraded, 99.12, "MySQL, PostgreSQL, and MongoDB hosting"),
    Service("Security Services", Operational, 99.99, "DDoS protection and firewall services")]

  const Datacenters: seq<Datacenter> := [
    Datacenter("US East (New York)", Operational, 12),
    Datacenter("US West (Los Angeles)", Operational, 8),
    Datacenter("EU West (London)", Operational, 15),
    Datacenter("EU Central (Frankfurt)", Degraded, 45),
    Datacenter("Asia Pacific (Singapore)", Operational, 22)]

  /** `services.every(s => s.status === "operational")`. */
  function AllOperational(services: seq<Service>): (r: bool)
    ensures r <==> forall i :: 0 <= i < |services| ==> services[i].status == Operational
  {
    services == [] || (services[0].status == Operational && AllOperational(services[1..]))
  }

  /** `services.some(s => s.status === "down")`. */
  function AnyDown(services: seq<Service>): (r: bool)
    ensures r <==> exists i :: 0 <= i < |services| && services[i].status == Down
  {
    if services == [] then false
    else if services[0].status == Down then true
    else
      assert forall i :: 1 <= i < |services| ==> services[i] == services[1..][i - 1];
      AnyDown(services[1..])
  }

  /** Every service operational: operational; else any down: down; else
      degraded. */
  function OverallStatus(services: seq<Service>): (r: string)
    ensures r == Operational <==> forall i :: 0 <= i < |services| ==> services[i].status == Operational
    ensures r == Down <==> exists i :: 0 <= i < |services| && services[i].status == Down
    ensures r == Degraded <==>
      ((exists i :: 0 <= i < |services| && services[i].status != Operational)
       && forall i :: 0 <= i < |services| ==> services[i].status != Down)
  {
    if AllOperational(services) then Operational
    else if AnyDown(services) then Down
    else Degraded
  }

  /** The published table has one degraded service and none down. */
  lemma ServicesAreDegraded()
    ensures OverallStatus(Services) == Degraded
  {
    assert Services[2].status != Operational;
    assert forall i :: 0 <= i < |Services| ==> Services[i].status != Down;
  }

  datatype Badge = OperationalBadge | DegradedBadge | DownBadge | UnknownBadge

  function StatusBadge(status: string): (r: Badge)
    ensures r == UnknownBadge <==> status !in {Operational, Degraded, Down}
  {
    if status == Operational then OperationalBadge
    else if status == Degraded then DegradedBadge
    else if status == Down then DownBadge
    else UnknownBadge
  }

  /** The text of a badge; only the fallback badge reads "Unknown". */
  function BadgeLabel(b: Badge): (r: string)
    ensures r == "Unknown" <==> b == UnknownBadge
  {
    match b
    case OperationalBadge => "Operational"
    case DegradedBadge => "Degraded"
    case DownBadge => "Down"
    case UnknownBadge => "Unknown"
  }

  /** The badge over the whole page is never "Unknown", whatever the
      services report. */
  lemma OverallBadgeIsKnown(services: seq<Service>)
    ensures StatusBadge(OverallStatus(services)) != UnknownBadge
    ensures BadgeLabel(StatusBadge(OverallStatus(services))) in {"Operational", "Degraded", "Down"}
  {
  }

  /** A datacenter's latency is shown as a warning above 30 ms. */
  predicate LatencyWarning(latencyMs: int)
  {
    latencyMs > 30
  }

  /** In the published table only Frankfurt is shown as a warning. */
  lemma OnlyFrankfurtWarns()
    ensures forall i :: 0 <= i < |Datacenters| ==>
      (LatencyWarning(Datacenters[i].latency) <==> Datacenters[i].name == "EU Central (Frankfurt)")
  {
    assert Datacenters[0].name != "EU Central (Frankfurt)";
    assert Datacenters[1].name != "EU Central (Frankfurt)";
    assert Datacenters[2].name != "EU Central (Frankfurt)";
    assert Datacenters[4].name != "EU Central (Frankfurt)";
  }
}
