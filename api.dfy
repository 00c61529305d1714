/** The values the init command exchanges with its collaborators: the Vault
    API client, the terminal UI and the process exit code. */
module Api {
  import opened Ui

  /** The answer of `Sys().InitStatus()` on one node. */
  datatype Status = Initialized | NotInitialized | StatusError(cause: string)

  /** The outcome of building an API client aimed at one address (`c.Client()`). */
  datatype Client = ClientOk | ClientError(cause: string)

  /** The request sent to `Sys().Init`, built from the command's flags and
      forwarded without any validation. */
  datatype InitRequest = InitRequest(
    secretShares: int,
    secretThreshold: int,
    storedShares: int,
    pgpKeys: seq<string>,
    recoveryShares: int,
    recoveryThreshold: int,
    recoveryPgpKeys: seq<string>)

  /** The answer of `Sys().Init`: the key material, or an error. */
  datatype InitResponse =
    | InitOk(keys: seq<string>, recoveryKeys: seq<string>, rootToken: string)
    | InitError(cause: string)

  /** Everything the command can learn from the Vault listening at one address. */
  datatype Node = Node(client: Client, status: Status, init: InitResponse)

  /** One request the command sends to a Vault node. */
  datatype Call = StatusCall(address: string) | InitCall(address: string, request: InitRequest)

  /** What one run of (part of) the command does: the UI lines it prints, the
      remote calls it makes, in order, and the code it returns. */
  datatype Transcript = Transcript(lines: seq<Line>, calls: seq<Call>, code: int)

  /** The status probe issued against each address, in order. */
  function StatusCalls(addresses: seq<string>): seq<Call>
  {
    seq(|addresses|, i requires 0 <= i < |addresses| => StatusCall(addresses[i]))
  }
}
