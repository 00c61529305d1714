/** The `vault init` command: with `-auto`, discover the nodes of a cluster
    through Consul and pick what to do; otherwise run `runInit` against the
    configured address. */
module Command {
  import opened Api
  import opened Ui
  import opened Discovery
  import opened Orchestrator

  /** The parsed flags and the process environment the command depends on. */
  datatype Invocation = Invocation(
    check: bool,           // -check
    request: InitRequest,  // -key-shares, -key-threshold, -stored-shares, ...
    auto: string,          // -auto: the Consul service name, "" when not given
    windows: bool,         // runtime.GOOS == "windows"
    target: string)        // VAULT_ADDR when discovery is not used

  /** The Consul agent, or the error creating a client for it. */
  datatype Consul = ConsulClientError(cause: string) | ConsulAgent(scheme: string, catalog: Catalog)

  /** What the command does once the discovered nodes have been scanned. */
  datatype Action =
    | Abort(error: Message)
    | Redirect(address: string)
    | NotFound
    | AutoInit(address: string)
    | Ambiguous(addresses: seq<string>)

  /** The decision after the discovery loop. */
  function Select(scan: Scan): (r: Action)
    ensures r.Abort? <==> scan.NoClient? || scan.ProbeFailed?
    ensures r.Redirect? <==> scan.FoundInitialized?
    ensures r.Redirect? ==> r.address == scan.address
    ensures r.NotFound? <==> scan.Uninitialized? && scan.addresses == []
    ensures r.AutoInit? <==> scan.Uninitialized? && |scan.addresses| == 1
    ensures r.AutoInit? ==> scan.addresses == [r.address]
    ensures r.Ambiguous? ==> scan.Uninitialized? && r.addresses == scan.addresses && |r.addresses| >= 2
  {
    match scan
    case NoClient(cause) => Abort(ClientFailed(cause))
    case ProbeFailed(address, cause) => Abort(DiscoveredNodeProbeFailed(address, cause))
    case FoundInitialized(address) => Redirect(address)
    case Uninitialized(addresses) =>
      if |addresses| == 0 then NotFound
      else if |addresses| == 1 then AutoInit(addresses[0])
      else Ambiguous(addresses)
  }

  function ExportLines(windows: bool, addresses: seq<string>): seq<Line> {
    seq(|addresses|, i requires 0 <= i < |addresses| => Out(ExportVaultAddr(windows, addresses[i])))
  }

  function RedirectLines(windows: bool, address: string): seq<Line> {
    [Out(DiscoveredInitialized(address)), Out(SetVaultAddr), Out(ExportVaultAddr(windows, address))]
  }

  /** What carrying out an action prints, calls and returns. */
  function Perform(inv: Invocation, action: Action, server: string -> Node): (r: Transcript)
    ensures action.AutoInit? ==> forall c :: c in r.calls ==> c.address == action.address
    ensures !action.AutoInit? ==> r.calls == [] && (r.code == 0 <==> action.Redirect? || action.Ambiguous?)
  {
    match action
    case Abort(error) => Transcript([Err(error)], [], 1)
    case Redirect(address) => Transcript(RedirectLines(inv.windows, address), [], 0)
    case NotFound => Transcript([Err(NothingDiscovered(inv.auto))], [], 1)
    case AutoInit(address) =>
      var t := InitTranscript(inv.check, inv.request, address, server(address));
      Transcript([Out(DiscoveredSingle(address))] + t.lines + [Out(SetVaultAddr), Out(ExportVaultAddr(inv.windows, address))],
                 t.calls, t.code)
    case Ambiguous(addresses) =>
      Transcript([Out(DiscoveredSeveral(inv.auto)), Out(ChooseOne)] + ExportLines(inv.windows, addresses), [], 0)
  }

  /** One whole run of the command. */
  function RunSpec(inv: Invocation, consul: Consul, server: string -> Node): (r: Transcript)
    ensures inv.auto == "" ==> forall c :: c in r.calls ==> c.address == inv.target
    ensures inv.auto != "" ==> forall c :: c in r.calls ==> c.address in Discovered(consul)
  {
    if inv.auto == "" then InitTranscript(inv.check, inv.request, inv.target, server(inv.target))
    else
      match consul
      case ConsulClientError(cause) => Transcript([Err(ConsulClientFailed(cause))], [], 1)
      case ConsulAgent(scheme, catalog) =>
        var addresses := Addresses(scheme, Entries(catalog));
        var t := Perform(inv, Select(Classify(addresses, server)), server);
        Transcript(t.lines, StatusCalls(addresses[..ProbeCount(addresses, server)]) + t.calls, t.code)
  }

  /** The addresses discovery would scan, in catalogue order. */
  function Discovered(consul: Consul): seq<string> {
    match consul
    case ConsulClientError(_) => []
    case ConsulAgent(scheme, catalog) => Addresses(scheme, Entries(catalog))
  }

  /** The first node, in catalogue order, that reports itself initialized ends
      discovery: the nodes after it are never probed, nothing is initialized,
      the operator is told to point VAULT_ADDR at it, and the exit code is 0. */
  lemma RedirectsToFirstInitialized(inv: Invocation, consul: Consul, server: string -> Node, i: nat)
    requires inv.auto != "" && consul.ConsulAgent?
    requires i < |Discovered(consul)|
    requires forall j :: 0 <= j < i ==> Pending(server(Discovered(consul)[j]))
    requires server(Discovered(consul)[i]).client.ClientOk?
    requires server(Discovered(consul)[i]).status.Initialized?
    ensures RunSpec(inv, consul, server) ==
            Transcript(RedirectLines(inv.windows, Discovered(consul)[i]), StatusCalls(Discovered(consul)[..i + 1]), 0)
  {
    InitializedNodeEndsScan(Discovered(consul), server, i);
  }

  /** A node whose client cannot be built or whose status cannot be read
      aborts the run with exit code 1 and a single error line; the pending
      nodes seen before it are forgotten and nothing is initialized. */
  lemma AbortsOnProbeError(inv: Invocation, consul: Consul, server: string -> Node, i: nat)
    requires inv.auto != "" && consul.ConsulAgent?
    requires i < |Discovered(consul)|
    requires forall j :: 0 <= j < i ==> Pending(server(Discovered(consul)[j]))
    requires server(Discovered(consul)[i]).client.ClientError? || server(Discovered(consul)[i]).status.StatusError?
    ensures var node := server(Discovered(consul)[i]);
            RunSpec(inv, consul, server) ==
            if node.client.ClientError? then
              Transcript([Err(ClientFailed(node.client.cause))], StatusCalls(Discovered(consul)[..i]), 1)
            else
              Transcript([Err(DiscoveredNodeProbeFailed(Discovered(consul)[i], node.status.cause))],
                         StatusCalls(Discovered(consul)[..i + 1]), 1)
  {
    ErrorAbortsScan(Discovered(consul), server, i);
  }

  /** A failed catalogue query cannot be told apart from an empty catalogue:
      both report that no node was discovered and exit with 1. */
  lemma QueryErrorLooksLikeEmptyCatalog(inv: Invocation, scheme: string, cause: string, server: string -> Node)
    requires inv.auto != ""
    ensures RunSpec(inv, ConsulAgent(scheme, QueryError(cause)), server) ==
            RunSpec(inv, ConsulAgent(scheme, Services([])), server)
    ensures RunSpec(inv, ConsulAgent(scheme, QueryError(cause)), server) ==
            Transcript([Err(NothingDiscovered(inv.auto))], [], 1)
  {
  }

  /** A single discovered node, not initialized, is initialized (or, with
      -check, probed once more) through `runInit`; the run returns its code
      and always ends with the VAULT_ADDR instructions. */
  lemma SoleCandidateIsInitialized(inv: Invocation, consul: Consul, server: string -> Node)
    requires inv.auto != "" && consul.ConsulAgent?
    requires |Discovered(consul)| == 1 && Pending(server(Discovered(consul)[0]))
    ensures var address := Discovered(consul)[0];
            var t := RunSpec(inv, consul, server);
            var init := InitTranscript(inv.check, inv.request, address, server(address));
            && t.code == init.code
            && t.calls == [StatusCall(address)] + init.calls
            && t.lines == [Out(DiscoveredSingle(address))] + init.lines
                          + [Out(SetVaultAddr), Out(ExportVaultAddr(inv.windows, address))]
  {
    UninitializedIffAllPending(Discovered(consul), server);
    assert Discovered(consul)[..1] == Discovered(consul);
  }

  /** Two or more discovered nodes, none initialized: nothing is initialized,
      every candidate is listed in discovery order, and the exit code is 0. */
  lemma SeveralCandidatesAreListed(inv: Invocation, consul: Consul, server: string -> Node)
    requires inv.auto != "" && consul.ConsulAgent?
    requires |Discovered(consul)| >= 2
    requires forall j :: 0 <= j < |Discovered(consul)| ==> Pending(server(Discovered(consul)[j]))
    ensures RunSpec(inv, consul, server) ==
            Transcript([Out(DiscoveredSeveral(inv.auto)), Out(ChooseOne)] + ExportLines(inv.windows, Discovered(consul)),
                       StatusCalls(Discovered(consul)), 0)
  {
    UninitializedIffAllPending(Discovered(consul), server);
    assert Discovered(consul)[..|Discovered(consul)|] == Discovered(consul);
  }

  /** With -check the command only ever asks for status. */
  lemma CheckModeNeverSendsInit(inv: Invocation, consul: Consul, server: string -> Node)
    requires inv.check
    ensures forall c :: c in RunSpec(inv, consul, server).calls ==> c.StatusCall?
  {
    InitOnlyWhenSafe(inv, consul, server);
    var calls := RunSpec(inv, consul, server).calls;
    forall c | c in calls
      ensures c.StatusCall?
    {
      var k :| 0 <= k < |calls| && calls[k] == c;
    }
  }

  /** Init is sent at most once, as the last request, carrying the request
      unchanged, and only to the configured address or, with -auto, to the
      one node discovery found, when it was found uninitialized. */
  lemma InitOnlyWhenSafe(inv: Invocation, consul: Consul, server: string -> Node)
    ensures var calls := RunSpec(inv, consul, server).calls;
            forall k :: 0 <= k < |calls| && calls[k].InitCall? ==>
              && !inv.check
              && k == |calls| - 1
              && calls[k].request == inv.request
              && (if inv.auto == "" then calls[k].address == inv.target
                  else consul.ConsulAgent? && Classify(Discovered(consul), server) == Uninitialized([calls[k].address]))
  {
    if inv.auto == "" {
      InitTranscriptCalls(inv.check, inv.request, inv.target, server(inv.target));
    } else if consul.ConsulAgent? {
      var addresses := Discovered(consul);
      var probes := StatusCalls(addresses[..ProbeCount(addresses, server)]);
      var action := Select(Classify(addresses, server));
      var t := Perform(inv, action, server);
      assert RunSpec(inv, consul, server).calls == probes + t.calls;
      if action.AutoInit? {
        InitTranscriptCalls(inv.check, inv.request, action.address, server(action.address));
      } else {
        assert t.calls == [];
      }
    }
  }

  /** The exit code is 0, 1 or 2, and 2 only with -check. */
  lemma ExitCodes(inv: Invocation, consul: Consul, server: string -> Node)
    ensures RunSpec(inv, consul, server).code in {0, 1, 2}
    ensures RunSpec(inv, consul, server).code == 2 ==> inv.check
  {
  }

  /** The command object: what it has printed and the requests it has sent. */
  class InitCommand {
    var ui: seq<Line>
    var calls: seq<Call>

    constructor ()
      ensures ui == [] && calls == []
    {
      ui, calls := [], [];
    }

    /** Since the start of the method, the command printed `t.lines` and sent
        `t.calls`, and nothing else. */
    twostate predicate Appended(t: Transcript)
      reads this
    {
      ui == old(ui) + t.lines && calls == old(calls) + t.calls
    }

    /** `checkStatus` on the node at `address`. */
    method CheckStatus(address: string, server: string -> Node) returns (code: int)
      modifies this
      ensures Appended(StatusTranscript(address, server(address).status))
      ensures code == CheckStatusCode(server(address).status)
    {
      calls := calls + [StatusCall(address)];
      match server(address).status {
        case StatusError(cause) =>
          ui := ui + [Err(StatusFailed(cause))];
          code := 1;
        case Initialized =>
          ui := ui + [Out(IsInitialized)];
          code := 0;
        case NotInitialized =>
          ui := ui + [Out(IsNotInitialized)];
          code := 2;
      }
    }

    /** One of the two loops of `runInit` that print a key set. */
    method ShowKeys(keySet: KeySet, keys: seq<string>)
      modifies this
      ensures ui == old(ui) + KeyLines(keySet, keys)
      ensures calls == old(calls)
    {
      for i := 0 to |keys|
        invariant ui == old(ui) + KeyLines(keySet, keys)[..i]
        invariant calls == old(calls)
      {
        ui := ui + [Out(Key(keySet, i + 1, keys[i]))];
      }
      assert KeyLines(keySet, keys)[..|keys|] == KeyLines(keySet, keys);
    }

    /** `runInit` against the node at `address`. */
    method RunInit(check: bool, request: InitRequest, address: string, server: string -> Node) returns (code: int)
      modifies this
      ensures Appended(InitTranscript(check, request, address, server(address)))
      ensures code == InitTranscript(check, request, address, server(address)).code
    {
      var node := server(address);
      if node.client.ClientError? {
        ui := ui + [Err(ClientFailed(node.client.cause))];
        return 1;
      }
      if check {
        code := CheckStatus(address, server);
        return;
      }
      calls := calls + [InitCall(address, request)];
      match node.init {
        case InitError(cause) =>
          ui := ui + [Err(InitFailed(cause))];
          return 1;
        case InitOk(keys, recoveryKeys, rootToken) =>
          ShowKeys(Unseal, keys);
          ShowKeys(Recovery, recoveryKeys);
          ui := ui + [Out(RootToken(rootToken))];
          if request.storedShares < 1 {
            ui := ui + [Out(SharesSummary(request.secretShares, request.secretThreshold))];
          } else {
            ui := ui + [Out(InitializedSuccessfully)];
          }
          if |recoveryKeys| > 0 {
            ui := ui + [Out(RecoverySummary(request.recoveryShares, request.recoveryThreshold))];
          }
          return 0;
      }
    }

    /** The loop that prints one VAULT_ADDR line per candidate. */
    method ShowExports(windows: bool, addresses: seq<string>)
      modifies this
      ensures ui == old(ui) + ExportLines(windows, addresses)
      ensures calls == old(calls)
    {
      for i := 0 to |addresses|
        invariant ui == old(ui) + ExportLines(windows, addresses)[..i]
        invariant calls == old(calls)
      {
        ui := ui + [Out(ExportVaultAddr(windows, addresses[i]))];
      }
      assert ExportLines(windows, addresses)[..|addresses|] == ExportLines(windows, addresses);
    }

    /** The switch at the end of the discovery branch of `Run`. */
    method Act(inv: Invocation, action: Action, server: string -> Node) returns (code: int)
      modifies this
      ensures Appended(Perform(inv, action, server))
      ensures code == Perform(inv, action, server).code
    {
      match action {
        case Abort(error) =>
          ui := ui + [Err(error)];
          return 1;
        case Redirect(address) =>
          ui := ui + RedirectLines(inv.windows, address);
          return 0;
        case NotFound =>
          ui := ui + [Err(NothingDiscovered(inv.auto))];
          return 1;
        case AutoInit(address) =>
          ui := ui + [Out(DiscoveredSingle(address))];
          code := RunInit(inv.check, inv.request, address, server);
          ui := ui + [Out(SetVaultAddr), Out(ExportVaultAddr(inv.windows, address))];
          return;
        case Ambiguous(addresses) =>
          ui := ui + [Out(DiscoveredSeveral(inv.auto)), Out(ChooseOne)];
          ShowExports(inv.windows, addresses);
          return 0;
      }
    }

    /** `Run`, from the point where the flags have been parsed. */
    method Run(inv: Invocation, consul: Consul, server: string -> Node) returns (code: int)
      modifies this
      ensures Appended(RunSpec(inv, consul, server))
      ensures code == RunSpec(inv, consul, server).code
    {
      if inv.auto != "" {
        match consul {
          case ConsulClientError(cause) =>
            ui := ui + [Err(ConsulClientFailed(cause))];
            return 1;
          case ConsulAgent(scheme, catalog) =>
            var scan, probed := Discover(scheme, catalog, server);
            calls := calls + StatusCalls(probed);
            code := Act(inv, Select(scan), server);
            return;
        }
      }
      code := RunInit(inv.check, inv.request, inv.target, server);
    }
  }
}
