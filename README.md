# `vault init`: discovery, action selection and initialization

This project models the decision core of Vault's `vault init` command
(`command/init.go`), together with proofs about it:

- **Discovery** (`-auto <service>`). The nodes Consul lists under the service
  name are turned into `scheme://address:port` addresses and probed in
  catalogue order. The scan stops at the first initialized node, or aborts
  when a client cannot be built or a status cannot be read. The nodes that
  report "not initialized" are collected in order.
- **Action selection**. After the scan the command does one of four things:
  - it redirects the operator to the initialized node (exit 0);
  - it reports that nothing was found (exit 1);
  - it initializes the single uninitialized node and returns `runInit`'s code;
  - it lists all candidates with the command that sets VAULT_ADDR (exit 0).
- **`runInit`**. In check mode it only reports the status. Otherwise it sends
  the Init request unchanged and prints the numbered unseal keys, then the
  recovery keys, then the root token and the closing messages.
- **`checkStatus`**. It maps the status to exit code 0 (initialized),
  2 (not initialized) or 1 (error).

How the model is built:

- **The remote world is an input.** A function `server: string -> Node` gives,
  for each address, three things: whether a client for it can be built, its
  status answer, and its answer to Init. The Consul agent is an input too:
  either the error creating its client, or a scheme and the catalogue answer.
- **Observable behaviour is a `Transcript`.** It holds the UI lines (the
  `Message` datatype plus `Ui.Text`, which gives each message's exact wording),
  the Vault requests sent (status probes and Init calls, in order) and the
  exit code.
- **Pure specification functions** state what a run does:
  `Discovery.Classify`, `Command.Select`, `Command.Perform`,
  `Command.RunSpec` and `Orchestrator.InitTranscript`.
- **Imperative code is proved against them.** The discovery loop
  (`Discovery.Discover`) and the `InitCommand` class are proved equal to those
  functions. The class's fields `ui` and `calls` are what the command has
  printed and sent, and its methods `Run`, `Act`, `RunInit`, `ShowKeys`,
  `ShowExports` and `CheckStatus` follow the source's statements.
- **The lemmas state the command's promises** over the specification
  functions.

Two behaviours of the source are kept as they are:

- Nothing validates the `InitRequest` fields (for example threshold ≤ shares).
  The request built from the flags is forwarded unchanged, and the model does
  the same.
- The printed VAULT_ADDR lines put `http://` in front of an address that
  already carries its scheme (`command/init.go:110,135,146`). The model keeps
  this wording.

## Model

| member | source | states |
|---|---|---|
| Discovery.VaultAddress | command/init.go:70 | A discovered address starts with `scheme://`. The port's rendering is preceded by a `:`. |
| Discovery.Classify | command/init.go:84-98 | A client failure names an address in the catalogue whose client could not be built. A probe failure names a catalogue address whose status answer was that error. A found initialized node is a catalogue address that reported itself initialized. An uninitialized result lists exactly the catalogue's addresses. |
| Discovery.Discover | command/init.go:63-98 | The loop's scan result is `Classify` of the catalogue's addresses. The addresses it probed are exactly the prefix that `ProbeCount` gives: every pending node before the first decisive one, plus that node when a client for it could be built. A query error leaves nothing to scan. |
| Discovery.FirstDecisive | command/init.go:69-97 | The index it returns is the first address whose node is not pending. Every node before it is pending. |
| Discovery.VaultAddressShape | command/init.go:70 | A discovered address starts with `scheme://` and ends with `:` and the port's decimal digits, which read back as the port. |
| Discovery.InitializedNodeEndsScan | command/init.go:84-92 | The first initialized node, after only pending ones, is the scan's result, and nothing after it is probed. |
| Discovery.FoundInitializedIsFirst | command/init.go:89-92 | Conversely, a reported initialized node is the first decisive node, it did report "initialized", and it was the last one probed. |
| Discovery.ErrorAbortsScan | command/init.go:76-88 | A client failure or a status error ends the scan with that error. The pending nodes seen before it are dropped. The failing node counts as probed only when its client could be built. |
| Discovery.UninitializedIffAllPending | command/init.go:93-98 | The scan ends with uninitialized nodes if and only if every node is pending. They are then listed, all of them, in catalogue order, and every one was probed. |
| Orchestrator.CheckStatusCode | command/init.go:217-231 | Exit code 0 if and only if initialized, 2 if and only if not initialized, 1 if and only if the status could not be read. |
| Orchestrator.InitTranscript | command/init.go:156-215 | `runInit` exits with 0 exactly when a client was built and the node is initialized (check mode) or Init succeeded. It exits with 2 exactly in check mode on a node that is not initialized, and with 1 otherwise. It sends at most one request. |
| Orchestrator.CheckModeNeverInitializes | command/init.go:164-166 | In check mode `runInit` sends at most a status probe and never Init. Its code is the status code, or 1 when no client could be built. |
| Orchestrator.InitErrorShowsNoKeys | command/init.go:168-173 | A failed Init gives exit 1 and a single error line, with no key material, after the one Init call. |
| Orchestrator.SuccessShowsKeysInOrder | command/init.go:175-182 | After a successful Init the exit code is 0 and the request was sent once, unchanged. The unseal keys come first, numbered from 1 in the server's order, then the recovery keys the same way, then the root token line. |
| Orchestrator.KeyLinesReadBack | command/init.go:175-180 | Every printed key line reads back as its own number and its own key. |
| Orchestrator.RootTokenShownOnce | command/init.go:182 | The root token line appears exactly once, right after the keys. |
| Orchestrator.ClosingMessages | command/init.go:184-212 | The share summary is printed if and only if `StoredShares < 1`, and "initialized successfully" is printed otherwise. The recovery summary is printed, as the last line, if and only if recovery keys came back. |
| Orchestrator.InitTranscriptCalls | command/init.go:156-168 | `runInit` sends nothing when no client can be built, one status probe in check mode, and otherwise exactly one Init carrying the request unchanged. |
| Ui.Text | command/init.go:59-228 | The exact wording of every printed line (lines 59, 79, 87, 108-110, 116, 128, 134-146, 160, 171, 176, 179, 182, 185-211 and 222-228). A key line reads back as its own number and key. |
| Ui.KeyTextRoundTrip | command/init.go:176 | A `<Set> Key <n>: <key>` line parses back to exactly `n` and `key`. |
| Decimal.ParseNatToString | command/init.go:176 | A number printed with `%d` reads back as that number. |
| Command.Select | command/init.go:107-150 | An abort exactly on a client or probe failure. A redirect exactly when an initialized node was found, to that node. Not found exactly when the scan listed no uninitialized node. Auto-init exactly when it listed one, on that node. Otherwise a listing of all the uninitialized nodes, at least two. |
| Command.Perform | command/init.go:107-150 | Only auto-init sends requests, and only to the node it initializes. Every other action sends nothing and exits with 0 exactly for a redirect or a listing. |
| Command.RunSpec | command/init.go:50-153 | Without `-auto` every request goes to the configured address. With `-auto` every request goes to an address discovered in the catalogue. |
| Command.RedirectsToFirstInitialized | command/init.go:84-111 | The first initialized node after only pending ones produces the redirect lines for that address and exit code 0. The run makes no Init call, and no node after it is probed. |
| Command.AbortsOnProbeError | command/init.go:76-88 | A client or status failure produces exit code 1 and a single error line, and nothing is initialized. The probes sent are the ones before the failure, plus the failing one when its client was built. |
| Command.QueryErrorLooksLikeEmptyCatalog | command/init.go:67-117 | A failed catalogue query gives the same run as an empty catalogue: "Failed to discover", exit 1, no request sent. |
| Command.SoleCandidateIsInitialized | command/init.go:118-137 | With one discovered node that is not initialized, `runInit` runs on that address and the command returns its code. Its output is wrapped between "Discovered Vault at" and the VAULT_ADDR instructions. |
| Command.SeveralCandidatesAreListed | command/init.go:138-149 | With two or more uninitialized nodes, all of them are listed in discovery order and exit code 0 is returned. Only status probes are sent, and nothing is initialized. |
| Command.CheckModeNeverSendsInit | command/init.go:164-166 | In check mode a whole run, discovery included, sends only status probes. |
| Command.InitOnlyWhenSafe | command/init.go:114-153 | An Init call is sent only outside check mode, only as the last request and only with the request unchanged. It goes either to the configured address or, with discovery, to the single node found uninitialized. |
| Command.ExitCodes | command/init.go:52-231 | A run exits with 0, 1 or 2, and with 2 only in check mode. |
| Command.InitCommand.CheckStatus | command/init.go:217-231 | The method probes the node once, prints the status line and returns the three-way code. |
| Command.InitCommand.ShowKeys | command/init.go:175-180 | The loop prints the key lines of one set, in order, numbered from 1, and sends nothing. |
| Command.InitCommand.RunInit | command/init.go:156-215 | The method's printed lines, requests and code are exactly `InitTranscript` for the node at the address. |
| Command.InitCommand.ShowExports | command/init.go:145-148 | The loop prints one VAULT_ADDR line per candidate, in order, and sends nothing. |
| Command.InitCommand.Act | command/init.go:107-150 | The switch's printed lines, requests and code are exactly `Perform` of the selected action. |
| Command.InitCommand.Run | command/init.go:50-153 | A run's printed lines, requests and code are exactly `RunSpec`: the discovery probes followed by the selected action, or `runInit` on the configured address when `-auto` is not given. |

## Left out

- Flag parsing, and the exit code 1 it returns on bad flags (`command/init.go:20-38`). The parsed flags are an `Invocation` value.
- `Help` and `Synopsis`. They return constant text.
- Loading of PGP key files and Keybase keys. The keys are plain strings inside the `InitRequest`.
- The Consul client, the catalogue HTTP query, the Vault API client and its transport. These are foreign network calls, so they are inputs: `Consul`, `Catalog` and `server`.
- The Consul scheme comes from the Consul client's default configuration, which is not part of this model. It is an input string.
- Each node answers the same way every time it is asked. `server` is a fixed function, so a node whose state changes between the discovery probe and `runInit` is not modelled.
- `os.Setenv(VAULT_ADDR)` is global process state. It is replaced by the address passed explicitly to `runInit` (`Invocation.target`, or the discovered address).
- `runtime.GOOS` is the boolean `Invocation.windows`.
- The server-side secret splitting and encryption. These happen on the Vault node; the keys and the root token are inputs.
- The relative order of printed lines and sent requests. They are kept as two separate sequences, so the model does not say, for instance, that "Discovered Vault at" is printed before `runInit` sends Init (`command/init.go:128-131`).
- Go's `int` width. Ports and share counts are unbounded integers; they are only printed, never computed with.
