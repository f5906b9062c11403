/**
 * The services list of `src/pages/dashboard/Services.jsx`: the search box and
 * the two drop-down filters, the per-type summary counts, and the status badge.
 */
module Services {
  import opened Seqs
  import opened Text
  import opened Palette

  /** One subscribed service; `kind` is the source's `type` field. Dates and usage figures are left out. */
  datatype Service = Service(id: nat, name: string, kind: string, domain: string, priceCents: nat, status: string)

  const MockServices: seq<Service> := [
    Service(1, "Basic Hosting", "Web Hosting", "example.com", 4999, "Active"),
    Service(2, "Professional Hosting", "Web Hosting", "business.com", 9999, "Active"),
    Service(3, "example.com", "Domain", "example.com", 1299, "Active"),
    Service(4, "business.com", "Domain", "business.com", 1299, "Active"),
    Service(5, "SSL Certificate", "SSL", "example.com", 0, "Active"),
    Service(6, "Email Hosting", "Email", "example.com", 2499, "Pending")
  ]

  /** The value of a drop-down that does not restrict anything. */
  const All: string := "all"

  /** The search term and the status and type drop-downs. */
  datatype Query = Query(search: string, status: string, kind: string)

  /** What the page starts with: empty search, both filters on "all". */
  const InitialQuery := Query("", All, All)

  predicate Matches(q: Query, s: Service) {
    && (ContainsIgnoringCase(s.name, q.search) || ContainsIgnoringCase(s.domain, q.search))
    && (q.status == All || s.status == q.status)
    && (q.kind == All || s.kind == q.kind)
  }

  function MatchesQuery(q: Query): Service -> bool {
    (s: Service) => Matches(q, s)
  }

  /** `filteredServices`. */
  function FilteredServices(services: seq<Service>, q: Query): (r: seq<Service>)
    ensures forall s :: s in r <==>
      && s in services
      && (ContainsIgnoringCase(s.name, q.search) || ContainsIgnoringCase(s.domain, q.search))
      && (q.status == All || s.status == q.status)
      && (q.kind == All || s.kind == q.kind)
    ensures SubsequenceOf(r, services)
    ensures forall s :: multiset(r)[s] == if Matches(q, s) then multiset(services)[s] else 0
  {
    var r := Filter(services, MatchesQuery(q));
    FilterCounts(services, MatchesQuery(q));
    assert forall s :: s in r ==> MatchesQuery(q)(s) by {
      forall s | s in r ensures MatchesQuery(q)(s) {
        var i :| 0 <= i < |r| && r[i] == s;
      }
    }
    assert forall s :: s in services && Matches(q, s) ==> s in r by {
      forall s | s in services && Matches(q, s) ensures s in r {
        var i :| 0 <= i < |services| && services[i] == s;
        assert MatchesQuery(q)(services[i]);
      }
    }
    r
  }

  /** With an empty search and both filters on "all" every service is listed, in order. */
  lemma InitialQueryListsAll(services: seq<Service>)
    ensures FilteredServices(services, InitialQuery) == services
  {
    forall i | 0 <= i < |services| ensures MatchesQuery(InitialQuery)(services[i]) {
      EmptyTermMatches(services[i].name);
    }
    FilterKeepsAll(services, MatchesQuery(InitialQuery));
  }

  /** Choosing a particular status instead of "all" only ever removes services. */
  lemma NarrowingStatusNeverAdds(services: seq<Service>, search: string, status: string, kind: string)
    ensures SubsequenceOf(FilteredServices(services, Query(search, status, kind)),
                          FilteredServices(services, Query(search, All, kind)))
  {
    FilterNarrower(services, MatchesQuery(Query(search, status, kind)), MatchesQuery(Query(search, All, kind)));
  }

  /** The `type` of every service, in list order. */
  function KindsOf(services: seq<Service>): seq<string> {
    if |services| == 0 then [] else [services[0].kind] + KindsOf(services[1..])
  }

  function OfKind(kind: string): Service -> bool {
    (s: Service) => s.kind == kind
  }

  /** A summary card: `services.filter(s => s.type === kind).length`, over the whole list. */
  function TypeCount(services: seq<Service>, kind: string): (n: nat)
    ensures n == multiset(KindsOf(services))[kind]
  {
    CountIsMultiplicity(services, kind);
    |Filter(services, OfKind(kind))|
  }

  lemma {:induction false} CountIsMultiplicity(services: seq<Service>, kind: string)
    ensures |Filter(services, OfKind(kind))| == multiset(KindsOf(services))[kind]
  {
    if |services| > 0 {
      var rest := services[1..];
      CountIsMultiplicity(rest, kind);
      assert multiset(KindsOf(services)) == multiset{services[0].kind} + multiset(KindsOf(rest));
      if services[0].kind == kind {
        assert Filter(services, OfKind(kind)) == [services[0]] + Filter(rest, OfKind(kind));
      } else {
        assert Filter(services, OfKind(kind)) == Filter(rest, OfKind(kind));
      }
    }
  }

  /** `getStatusColor`: unknown statuses fall to the default grey, the same as "Expired". */
  function StatusTone(status: string): (t: Tone)
    ensures t == Green <==> status == "Active"
    ensures t == Yellow <==> status == "Pending"
    ensures t == Red <==> status == "Suspended"
    ensures t == Gray <==> status != "Active" && status != "Pending" && status != "Suspended"
  {
    match status
    case "Active" => Green
    case "Pending" => Yellow
    case "Suspended" => Red
    case "Expired" => Gray
    case _ => Gray
  }
}
