/** Auto-discovery: the nodes registered in Consul under a service name are
    probed one by one, in catalogue order, until one of them decides the scan. */
module Discovery {
  import opened Api
  import opened Wrappers
  import Decimal

  /** One catalogue entry for the service (`ServiceAddress`, `ServicePort`). */
  datatype Service = Service(address: string, port: int)

  /** The answer of the Consul catalogue query. */
  datatype Catalog = Services(entries: seq<Service>) | QueryError(cause: string)

  /** What the scan of the discovered nodes established. */
  datatype Scan =
    | NoClient(cause: string)
    | ProbeFailed(address: string, cause: string)
    | FoundInitialized(address: string)
    | Uninitialized(addresses: seq<string>)

  /** The address of a discovered node, `scheme://address:port`. */
  function VaultAddress(scheme: string, s: Service): (a: string)
    ensures scheme + "://" <= a
    ensures |a| > |Decimal.IntToString(s.port)|
    ensures a[|a| - |Decimal.IntToString(s.port)| - 1] == ':'
  {
    scheme + "://" + s.address + ":" + Decimal.IntToString(s.port)
  }

  /** A discovered address starts with the scheme and "://", and ends with
      a ':' followed by the port, which reads back as the port. */
  lemma VaultAddressShape(scheme: string, s: Service)
    requires s.port >= 0
    ensures var a := VaultAddress(scheme, s);
            var digits := Decimal.NatToString(s.port);
            && scheme + "://" <= a
            && |a| > |digits|
            && a[|a| - |digits| - 1] == ':'
            && a[|a| - |digits|..] == digits
            && Decimal.ParseNat(a[|a| - |digits|..]) == s.port
  {
    var a := VaultAddress(scheme, s);
    var head := scheme + "://" + s.address;
    var digits := Decimal.NatToString(s.port);
    assert a == head + ":" + digits;
    assert a == (scheme + "://") + (s.address + ":" + digits);
    Decimal.ParseNatToString(s.port);
  }

  function Addresses(scheme: string, entries: seq<Service>): seq<string> {
    seq(|entries|, i requires 0 <= i < |entries| => VaultAddress(scheme, entries[i]))
  }

  /** A failed catalogue query yields no entries at all. */
  function Entries(catalog: Catalog): seq<Service> {
    match catalog
    case Services(entries) => entries
    case QueryError(_) => []
  }

  /** A node that lets the scan go on: a client for it could be built and it
      reports that it is not initialized. */
  predicate Pending(n: Node) {
    n.client.ClientOk? && n.status.NotInitialized?
  }

  /** The index of the first address that ends the scan, or |addresses| when
      every node is pending. */
  function FirstDecisive(addresses: seq<string>, server: string -> Node): (k: nat)
    ensures k <= |addresses|
    ensures forall j :: 0 <= j < k ==> Pending(server(addresses[j]))
    ensures k < |addresses| ==> !Pending(server(addresses[k]))
    decreases |addresses|
  {
    if addresses == [] || !Pending(server(addresses[0])) then 0
    else 1 + FirstDecisive(addresses[1..], server)
  }

  /** How a decisive node ends the scan. */
  function Decide(address: string, n: Node): Scan
    requires !Pending(n)
  {
    if n.client.ClientError? then NoClient(n.client.cause)
    else if n.status.StatusError? then ProbeFailed(address, n.status.cause)
    else FoundInitialized(address)
  }

  /** The result of scanning `addresses` in order. */
  function Classify(addresses: seq<string>, server: string -> Node): (r: Scan)
    ensures r.NoClient? ==> exists a :: a in addresses && server(a).client == ClientError(r.cause)
    ensures r.ProbeFailed? ==>
              r.address in addresses && server(r.address).client.ClientOk?
              && server(r.address).status == StatusError(r.cause)
    ensures r.FoundInitialized? ==>
              r.address in addresses && server(r.address).client.ClientOk? && server(r.address).status.Initialized?
    ensures r.Uninitialized? ==> r.addresses == addresses
  {
    var k := FirstDecisive(addresses, server);
    if k == |addresses| then Uninitialized(addresses) else Decide(addresses[k], server(addresses[k]))
  }

  /** How many addresses have their status asked: every one before the first
      decisive node, and that node too when a client for it could be built. */
  function ProbeCount(addresses: seq<string>, server: string -> Node): nat {
    var k := FirstDecisive(addresses, server);
    if k < |addresses| && server(addresses[k]).client.ClientOk? then k + 1 else k
  }

  /** The discovery loop of `Run`. It returns what the scan established and
      the addresses whose status it asked, in the order it asked them. */
  method Discover(scheme: string, catalog: Catalog, server: string -> Node)
    returns (scan: Scan, probed: seq<string>)
    ensures scan == Classify(Addresses(scheme, Entries(catalog)), server)
    ensures probed == Addresses(scheme, Entries(catalog))[..ProbeCount(Addresses(scheme, Entries(catalog)), server)]
  {
    ghost var addresses := Addresses(scheme, Entries(catalog));
    ghost var k := FirstDecisive(addresses, server);
    var uninitializedVaults: seq<string> := [];
    var initializedVault: Option<string> := None;
    probed := [];
    if catalog.Services? {
      var services := catalog.entries;
      assert |addresses| == |services|;
      var i := 0;
      while i < |services|
        invariant i <= k
        invariant initializedVault == None
        invariant probed == addresses[..i]
        invariant uninitializedVaults == probed
      {
        var vaultAddress := VaultAddress(scheme, services[i]);
        assert vaultAddress == addresses[i];
        var node := server(vaultAddress);
        if node.client.ClientError? {
          assert i == k;
          scan := NoClient(node.client.cause);
          return;
        }
        PrefixGrows(addresses, i);
        probed := probed + [vaultAddress];
        if node.status.StatusError? {
          assert i == k;
          scan := ProbeFailed(vaultAddress, node.status.cause);
          return;
        } else if node.status.Initialized? {
          assert i == k;
          initializedVault := Some(vaultAddress);
          break;
        }
        uninitializedVaults := uninitializedVaults + [vaultAddress];
        i := i + 1;
      }
      assert initializedVault.None? ==> k == |addresses| && uninitializedVaults == addresses;
    }
    if initializedVault.Some? {
      scan := FoundInitialized(initializedVault.value);
    } else {
      scan := Uninitialized(uninitializedVaults);
    }
  }

  lemma PrefixGrows(s: seq<string>, i: nat)
    requires i < |s|
    ensures s[..i] + [s[i]] == s[..i + 1]
  {
  }

  /** The first initialized node ends the scan: it is the one reported, and
      no address after it is probed. */
  lemma InitializedNodeEndsScan(addresses: seq<string>, server: string -> Node, i: nat)
    requires i < |addresses|
    requires forall j :: 0 <= j < i ==> Pending(server(addresses[j]))
    requires server(addresses[i]).client.ClientOk? && server(addresses[i]).status.Initialized?
    ensures Classify(addresses, server) == FoundInitialized(addresses[i])
    ensures ProbeCount(addresses, server) == i + 1
  {
  }

  /** Conversely, a reported initialized node is the first decisive one. */
  lemma FoundInitializedIsFirst(addresses: seq<string>, server: string -> Node)
    requires Classify(addresses, server).FoundInitialized?
    ensures FirstDecisive(addresses, server) < |addresses|
    ensures Classify(addresses, server).address == addresses[FirstDecisive(addresses, server)]
    ensures server(addresses[FirstDecisive(addresses, server)]).status.Initialized?
    ensures ProbeCount(addresses, server) == FirstDecisive(addresses, server) + 1
  {
  }

  /** A failing client or probe aborts the scan at that node; the pending
      nodes seen before it are discarded. */
  lemma ErrorAbortsScan(addresses: seq<string>, server: string -> Node, i: nat)
    requires i < |addresses|
    requires forall j :: 0 <= j < i ==> Pending(server(addresses[j]))
    requires server(addresses[i]).client.ClientError? || server(addresses[i]).status.StatusError?
    ensures Classify(addresses, server) ==
            if server(addresses[i]).client.ClientError? then NoClient(server(addresses[i]).client.cause)
            else ProbeFailed(addresses[i], server(addresses[i]).status.cause)
    ensures ProbeCount(addresses, server) == (if server(addresses[i]).client.ClientOk? then i + 1 else i)
  {
  }

  /** The scan ends with uninitialized nodes exactly when every node is
      pending, and then it lists all of them, in discovery order, having
      probed each one. */
  lemma UninitializedIffAllPending(addresses: seq<string>, server: string -> Node)
    ensures Classify(addresses, server).Uninitialized? <==>
            forall j :: 0 <= j < |addresses| ==> Pending(server(addresses[j]))
    ensures Classify(addresses, server).Uninitialized? ==>
            Classify(addresses, server).addresses == addresses && ProbeCount(addresses, server) == |addresses|
  {
    var k := FirstDecisive(addresses, server);
    if k < |addresses| {
      assert !Pending(server(addresses[k]));
    }
  }
}
