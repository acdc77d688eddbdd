/** The `/api/services/status` loop both gateways share: probe each listed
    service's `/health` in turn and record it as healthy or unhealthy under
    its name. */
module Health {
  import opened Base

  /** A JSON body passed along without being looked into. */
  datatype Payload = Payload(raw: string)

  datatype Service = Service(name: string, url: string)

  /** What an `axios` call to a peer service does: a 2xx reply body, or an
      error (a non-2xx status, a refused connection or a timeout). */
  datatype PeerOutcome = Replied(body: Payload) | PeerFailed(message: string)

  /** One entry of the status map; `url` is reported only by some gateways. */
  datatype Entry =
    | Healthy(url: Option<string>, response: Payload)
    | Unhealthy(url: Option<string>, error: string)

  /** The entry recorded for one service. */
  function EntryFor(s: Service, probe: string -> PeerOutcome, withUrl: bool): (e: Entry)
    ensures e.Healthy? <==> probe(s.url).Replied?
    ensures e.url == (if withUrl then Some(s.url) else None)
    // A reply's body, or the failure's message, is what the entry records.
    ensures probe(s.url).Replied? ==> e == Healthy(e.url, probe(s.url).body)
    ensures probe(s.url).PeerFailed? ==> e == Unhealthy(e.url, probe(s.url).message)
  {
    var url := if withUrl then Some(s.url) else None;
    match probe(s.url)
    case Replied(body) => Healthy(url, body)
    case PeerFailed(msg) => Unhealthy(url, msg)
  }

  /** The names of the listed services. */
  function Names(services: seq<Service>): (names: set<string>)
    ensures forall k :: 0 <= k < |services| ==> services[k].name in names
    decreases |services|
  {
    if |services| == 0 then {}
    else
      var init := services[..|services| - 1];
      var names := Names(init);
      assert forall k :: 0 <= k < |init| ==> init[k] == services[k];
      names + {services[|services| - 1].name}
  }

  /** A name is in `Names` exactly when some listed service carries it. */
  lemma {:induction false} NamesIff(services: seq<Service>, n: string)
    ensures n in Names(services) <==> exists k :: 0 <= k < |services| && services[k].name == n
    decreases |services|
  {
    if |services| > 0 {
      var init := services[..|services| - 1];
      NamesIff(init, n);
      if n in Names(init) {
        var k :| 0 <= k < |init| && init[k].name == n;
        assert services[k].name == n;
      }
    }
  }

  /** Extending the list by one service adds that service's name. */
  lemma NamesSnoc(services: seq<Service>, i: nat)
    requires i < |services|
    ensures Names(services[..i + 1]) == Names(services[..i]) + {services[i].name}
  {
    assert services[..i + 1][..i] == services[..i];
  }

  /** No service after position `k` and before position `upto` reuses
      the name of service `k`. */
  ghost predicate LastWithName(services: seq<Service>, k: int, upto: int)
    requires 0 <= k < |services| && upto <= |services|
  {
    forall j :: k < j < upto ==> services[j].name != services[k].name
  }

  /** A service that is last with its name up to `i + 1` is so up to `i`,
      and service `i` has another name. */
  lemma LastWithNameShrinks(services: seq<Service>, k: int, i: int)
    requires 0 <= k < i < |services| && LastWithName(services, k, i + 1)
    ensures LastWithName(services, k, i) && services[i].name != services[k].name
  {
  }

  /** The `for (const service of services)` loop: one entry per service
      name, healthy exactly when that service's probe succeeded (a repeated
      name keeps the last service's entry). */
  method Aggregate(services: seq<Service>, probe: string -> PeerOutcome, withUrl: bool)
    returns (status: map<string, Entry>)
    ensures status.Keys == Names(services)
    ensures forall k :: 0 <= k < |services| && LastWithName(services, k, |services|) ==>
      status[services[k].name] == EntryFor(services[k], probe, withUrl)
  {
    status := map[];
    var i := 0;
    while i < |services|
      invariant 0 <= i <= |services|
      invariant status.Keys == Names(services[..i])
      invariant forall k :: 0 <= k < i ==> services[k].name in status
      invariant forall k :: 0 <= k < i && LastWithName(services, k, i) ==>
        status[services[k].name] == EntryFor(services[k], probe, withUrl)
    {
      var name := services[i].name;
      var entry := EntryFor(services[i], probe, withUrl);
      var next := status[name := entry];
      NamesSnoc(services, i);
      forall k | 0 <= k < i + 1 && LastWithName(services, k, i + 1)
        ensures next[services[k].name] == EntryFor(services[k], probe, withUrl)
      {
        if k < i {
          LastWithNameShrinks(services, k, i);
        }
      }
      status := next;
      i := i + 1;
    }
    assert services[..i] == services;
  }
}
