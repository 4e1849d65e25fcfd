/**
  The k8netd daemon as the host agent sees it: published port mappings handed out by a 32-bit
  counter, and the ports, attachments and address leases behind them. Calls may be refused, or
  take effect and be reported as failed, unless the caller asks for calm.
*/
module K8netd {
  import opened Common
  import opened HostAgent

  datatype PublishKey = PublishKey(port: string, guest: int)

  datatype Lease = Lease(network: string, mac: string)

  const BasePort := 20000

  /** Wrap-around of a Go int32. */
  function Wrap(x: int): (w: Int32) {
    (x + 0x8000_0000) % 0x1_0000_0000 - 0x8000_0000
  }

  /** The n-th port the counter hands out. */
  function Nth(n: int): Int32 { Wrap(BasePort + n) }

  lemma NthInjective(i: nat, j: nat)
    requires i < j < i + 0x1_0000_0000
    ensures Nth(i) != Nth(j)
  {
  }

  lemma NthNext(n: nat)
    ensures Wrap(Nth(n) + 1) == Nth(n + 1)
  {
  }

  predicate ValidKey(key: PublishKey) { key.port != "" && 0 < key.guest <= 65535 }

  class Network {
    var published: map<PublishKey, Int32>
    var nextHostPort: Int32
    var ports: set<string>
    var attached: set<string>
    var leases: set<Lease>
    /** How many host ports were ever issued, and which of them each live mapping holds. */
    ghost var issued: nat
    ghost var ticket: map<PublishKey, nat>

    /** Live mappings hold different issued ports; the counter holds the next one. */
    ghost predicate Valid()
      reads this
    {
      && nextHostPort == Nth(issued)
      && ticket.Keys == published.Keys
      && (forall k | k in published :: ticket[k] < issued && published[k] == Nth(ticket[k]))
      && (forall k, l | k in published && l in published && k != l :: ticket[k] != ticket[l])
    }

    constructor ()
      ensures Valid() && issued == 0 && published == map[]
    {
      published, nextHostPort, ports, attached, leases, issued, ticket := map[], BasePort, {}, {}, {}, 0, map[];
    }

    /** The host port a publish of the pair gets. */
    function Offer(key: PublishKey): Int32
      reads this
    {
      if key in published then published[key] else nextHostPort
    }

    /** The daemon's side of PublishPort: a known pair keeps its port, an unknown one gets the next. */
    method Publish(key: PublishKey) returns (host: Int32)
      requires Valid()
      modifies this`published, this`nextHostPort, this`issued, this`ticket
      ensures Valid()
      ensures published == old(published)[key := host]
      ensures key in old(published) ==> host == old(published)[key] && issued == old(issued)
      ensures key !in old(published) ==> host == Nth(old(issued)) && issued == old(issued) + 1
      ensures nextHostPort == if key in old(published) then old(nextHostPort) else Wrap(old(nextHostPort) + 1)
      ensures forall k | k in old(published) :: ticket[k] == old(ticket)[k]
    {
      if key in published { return published[key]; }
      host := nextHostPort;
      nextHostPort := Wrap(nextHostPort + 1);
      published := published[key := host];
      NthNext(issued);
      ticket := ticket[key := issued];
      issued := issued + 1;
    }

    /** The client's PublishPort: the daemon checks the pair, and a host port that is not positive is an error. */
    method PublishPort(key: PublishKey, calm: bool) returns (r: Result<Int32>)
      requires Valid()
      modifies this`published, this`nextHostPort, this`issued, this`ticket
      ensures Valid()
      ensures published == old(published) || (key in published && published == old(published)[key := published[key]])
      ensures key in old(published) ==> published == old(published)
      ensures published - {key} == old(published) - {key}
      ensures r.Ok? ==> key in published && published[key] == r.value && r.value > 0
      ensures calm && ValidKey(key) ==>
        && published == old(published)[key := old(Offer(key))] && r.Ok? == (published[key] > 0)
        && nextHostPort == if key in old(published) then old(nextHostPort) else Wrap(old(nextHostPort) + 1)
    {
      var refused: bool := *;
      if (refused && !calm) || !ValidKey(key) { return Err(Invalid); }
      var host := Publish(key);
      SetKeepsRest(old(published), key, host);
      var lost: bool := *;
      if (lost && !calm) || host <= 0 { return Err(Unavailable); }
      return Ok(host);
    }

    /** Success covers a mapping that was not there: callers take "not found" for removed. */
    method UnpublishPort(key: PublishKey, calm: bool) returns (ok: bool)
      requires Valid()
      modifies this`published, this`ticket
      ensures Valid()
      ensures published == old(published) || published == old(published) - {key}
      ensures published - {key} == old(published) - {key}
      ensures ok ==> key !in published
      ensures calm && ValidKey(key) ==> ok && published == old(published) - {key}
    {
      var refused: bool := *;
      if (refused && !calm) || !ValidKey(key) { return false; }
      published := published - {key};
      ticket := ticket - {key};
      var lost: bool := *;
      return calm || !lost;
    }

    method ReleaseIP(lease: Lease, calm: bool) returns (ok: bool)
      modifies this`leases
      ensures leases == old(leases) || leases == old(leases) - {lease}
      ensures ok ==> lease !in leases
      ensures calm ==> ok
    {
      var refused: bool := *;
      if refused && !calm { return false; }
      leases := leases - {lease};
      var lost: bool := *;
      return calm || !lost;
    }

    method DetachPort(port: string, calm: bool) returns (ok: bool)
      modifies this`attached
      ensures attached == old(attached) || attached == old(attached) - {port}
      ensures ok ==> port !in attached
      ensures calm ==> ok
    {
      var refused: bool := *;
      if refused && !calm { return false; }
      attached := attached - {port};
      var lost: bool := *;
      return calm || !lost;
    }

    method DeletePort(port: string, calm: bool) returns (ok: bool)
      modifies this`ports
      ensures ports == old(ports) || ports == old(ports) - {port}
      ensures ok ==> port !in ports
      ensures calm ==> ok
    {
      var refused: bool := *;
      if refused && !calm { return false; }
      ports := ports - {port};
      var lost: bool := *;
      return calm || !lost;
    }
  }

  /** Live mappings are injective as long as the counter has not come round: for 2^32 allocations. */
  lemma LiveMappingsInjective(network: Network, k: PublishKey, l: PublishKey)
    requires network.Valid() && network.issued <= 0x1_0000_0000
    requires k in network.published && l in network.published && k != l
    ensures network.published[k] != network.published[l]
  {
    var i, j := network.ticket[k], network.ticket[l];
    if i < j { NthInjective(i, j); } else { NthInjective(j, i); }
  }

  datatype Call = Publish(key: PublishKey) | Unpublish(key: PublishKey)

  /**
    The ports newly issued by a sequence of calls never repeat, even after an unpublish, until the counter
    comes round.
  */
  method Serve(network: Network, calls: seq<Call>) returns (handed: seq<Int32>)
    requires network.Valid()
    modifies network
    ensures network.Valid() && network.issued == old(network.issued) + |handed|
    ensures forall i | 0 <= i < |handed| :: handed[i] == Nth(old(network.issued) + i)
    ensures |handed| <= 0x1_0000_0000 ==> forall i, j | 0 <= i < j < |handed| :: handed[i] != handed[j]
  {
    handed := [];
    for c := 0 to |calls|
      invariant network.Valid() && network.issued == old(network.issued) + |handed|
      invariant forall i | 0 <= i < |handed| :: handed[i] == Nth(old(network.issued) + i)
    {
      match calls[c]
      case Publish(key) =>
        var known := key in network.published;
        var host := network.Publish(key);
        if !known { handed := handed + [host]; }
      case Unpublish(key) =>
        var _ := network.UnpublishPort(key, true);
    }
    if |handed| <= 0x1_0000_0000 {
      forall i, j | 0 <= i < j < |handed| ensures handed[i] != handed[j] {
        NthInjective(old(network.issued) + i, old(network.issued) + j);
      }
    }
  }
}
