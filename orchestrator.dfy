/** What `runInit` and `checkStatus` do against one Vault address: either
    report its initialization status, or initialize it and print the key
    material that comes back. */
module Orchestrator {
  import opened Api
  import opened Ui
  import opened Wrappers

  /** The exit code of `vault init -check`: 0 initialized, 2 not initialized,
      1 when the status could not be read. */
  function CheckStatusCode(status: Status): (code: int)
    ensures code == 0 <==> status.Initialized?
    ensures code == 2 <==> status.NotInitialized?
    ensures code == 1 <==> status.StatusError?
  {
    match status
    case StatusError(_) => 1
    case Initialized => 0
    case NotInitialized => 2
  }

  function StatusLine(status: Status): Line {
    match status
    case StatusError(cause) => Err(StatusFailed(cause))
    case Initialized => Out(IsInitialized)
    case NotInitialized => Out(IsNotInitialized)
  }

  /** `checkStatus`: one status probe, one line, and the exit code. */
  function StatusTranscript(address: string, status: Status): Transcript {
    Transcript([StatusLine(status)], [StatusCall(address)], CheckStatusCode(status))
  }

  /** The keys of one set, numbered from 1 in the order the server sent them. */
  function KeyLines(keySet: KeySet, keys: seq<string>): seq<Line> {
    seq(|keys|, i requires 0 <= i < |keys| => Out(Key(keySet, i + 1, keys[i])))
  }

  /** The closing message about the unseal keys. */
  function UnsealSummary(request: InitRequest): Message {
    if request.storedShares < 1 then SharesSummary(request.secretShares, request.secretThreshold)
    else InitializedSuccessfully
  }

  /** Everything printed after a successful `Sys().Init`. */
  function SuccessLines(request: InitRequest, keys: seq<string>, recoveryKeys: seq<string>, rootToken: string): seq<Line> {
    KeyLines(Unseal, keys) + KeyLines(Recovery, recoveryKeys)
    + [Out(RootToken(rootToken)), Out(UnsealSummary(request))]
    + (if |recoveryKeys| > 0 then [Out(RecoverySummary(request.recoveryShares, request.recoveryThreshold))] else [])
  }

  /** `runInit` against the node at `address`. */
  function InitTranscript(check: bool, request: InitRequest, address: string, node: Node): (r: Transcript)
    ensures r.code == 0 <==>
              node.client.ClientOk? && (if check then node.status.Initialized? else node.init.InitOk?)
    ensures r.code == 2 <==> check && node.client.ClientOk? && node.status.NotInitialized?
    ensures r.code == 1 <==> !(r.code == 0 || r.code == 2)
    ensures |r.calls| <= 1
  {
    match node.client
    case ClientError(cause) => Transcript([Err(ClientFailed(cause))], [], 1)
    case ClientOk =>
      if check then StatusTranscript(address, node.status)
      else
        match node.init
        case InitError(cause) =>
          Transcript([Err(InitFailed(cause))], [InitCall(address, request)], 1)
        case InitOk(keys, recoveryKeys, rootToken) =>
          Transcript(SuccessLines(request, keys, recoveryKeys, rootToken), [InitCall(address, request)], 0)
  }

  /** In check mode the node is only asked for its status, never initialized,
      and the exit code is the three-way status code. */
  lemma CheckModeNeverInitializes(request: InitRequest, address: string, node: Node)
    ensures var t := InitTranscript(true, request, address, node);
            (forall c :: c in t.calls ==> c == StatusCall(address))
            && t.code == (if node.client.ClientOk? then CheckStatusCode(node.status) else 1)
  {
  }

  /** A failed `Sys().Init` returns 1 and prints a single error line, with no
      key material. */
  lemma InitErrorShowsNoKeys(request: InitRequest, address: string, node: Node)
    requires node.client.ClientOk? && node.init.InitError?
    ensures var t := InitTranscript(false, request, address, node);
            t.code == 1 && t.calls == [InitCall(address, request)]
            && t.lines == [Err(InitFailed(node.init.cause))]
  {
  }

  /** After a successful `Sys().Init` the command returns 0, having sent the
      request unchanged exactly once. The unseal keys come first, numbered from
      1 in the server's order, then the recovery keys the same way, then the
      root token. */
  lemma SuccessShowsKeysInOrder(request: InitRequest, address: string, node: Node)
    requires node.client.ClientOk? && node.init.InitOk?
    ensures var t := InitTranscript(false, request, address, node);
            var keys, recoveryKeys := node.init.keys, node.init.recoveryKeys;
            && t.code == 0 && t.calls == [InitCall(address, request)]
            && |t.lines| >= |keys| + |recoveryKeys| + 2
            && (forall i :: 0 <= i < |keys| ==> t.lines[i] == Out(Key(Unseal, i + 1, keys[i])))
            && (forall i :: 0 <= i < |recoveryKeys| ==>
                  t.lines[|keys| + i] == Out(Key(Recovery, i + 1, recoveryKeys[i])))
            && t.lines[|keys| + |recoveryKeys|] == Out(RootToken(node.init.rootToken))
  {
    var t := InitTranscript(false, request, address, node);
    var keys, recoveryKeys := node.init.keys, node.init.recoveryKeys;
    var unseal, recovery := KeyLines(Unseal, keys), KeyLines(Recovery, recoveryKeys);
    assert t.lines == unseal + recovery + t.lines[|keys| + |recoveryKeys|..];
    forall i | 0 <= i < |recoveryKeys|
      ensures t.lines[|keys| + i] == Out(Key(Recovery, i + 1, recoveryKeys[i]))
    {
      calc {
        t.lines[|keys| + i];
        (unseal + recovery)[|keys| + i];
        recovery[i];
      }
    }
  }

  /** Each printed key line reads back as its number and its key, so the
      operator can tell which share is which. */
  lemma KeyLinesReadBack(keySet: KeySet, keys: seq<string>)
    ensures forall i :: 0 <= i < |keys| ==>
              ParseKeyText(keySet, Text(KeyLines(keySet, keys)[i].message)) == Some((i + 1, keys[i]))
  {
    forall i | 0 <= i < |keys|
      ensures ParseKeyText(keySet, Text(KeyLines(keySet, keys)[i].message)) == Some((i + 1, keys[i]))
    {
      assert Text(KeyLines(keySet, keys)[i].message) == KeyText(keySet, i + 1, keys[i]);
      KeyTextRoundTrip(keySet, i + 1, keys[i]);
    }
  }

  /** The root token is shown exactly once. */
  lemma RootTokenShownOnce(request: InitRequest, keys: seq<string>, recoveryKeys: seq<string>, rootToken: string)
    ensures var lines := SuccessLines(request, keys, recoveryKeys, rootToken);
            forall j :: 0 <= j < |lines| ==> (lines[j].message.RootToken? <==> j == |keys| + |recoveryKeys|)
  {
  }

  /** The closing messages: the summary with the share counts appears exactly
      when no shares are stored, and the recovery summary exactly when the
      server returned recovery keys. */
  lemma ClosingMessages(request: InitRequest, keys: seq<string>, recoveryKeys: seq<string>, rootToken: string)
    ensures var lines := SuccessLines(request, keys, recoveryKeys, rootToken);
            var n := |keys| + |recoveryKeys|;
            && |lines| == n + 2 + (if |recoveryKeys| > 0 then 1 else 0)
            && (request.storedShares < 1 <==>
                  lines[n + 1] == Out(SharesSummary(request.secretShares, request.secretThreshold)))
            && (request.storedShares >= 1 <==> lines[n + 1] == Out(InitializedSuccessfully))
            && (|recoveryKeys| > 0 <==>
                  lines[|lines| - 1] == Out(RecoverySummary(request.recoveryShares, request.recoveryThreshold)))
  {
  }

  /** `runInit` sends at most one request: a status probe in check mode, an
      Init carrying the request unchanged otherwise, and nothing when no
      client could be built. */
  lemma InitTranscriptCalls(check: bool, request: InitRequest, address: string, node: Node)
    ensures var calls := InitTranscript(check, request, address, node).calls;
            && (node.client.ClientError? ==> calls == [])
            && (node.client.ClientOk? && check ==> calls == [StatusCall(address)])
            && (node.client.ClientOk? && !check ==> calls == [InitCall(address, request)])
  {
  }
}
