/** The messages the init command hands to its terminal UI, and the exact
    wording each one is printed with. */
module Ui {
  import opened Decimal
  import opened Wrappers

  datatype KeySet = Unseal | Recovery

  datatype Message =
    | ConsulClientFailed(cause: string)
    | ClientFailed(cause: string)
    | DiscoveredNodeProbeFailed(address: string, cause: string)
    | DiscoveredInitialized(address: string)
    | SetVaultAddr
    | ExportVaultAddr(windows: bool, address: string)
    | NothingDiscovered(service: string)
    | DiscoveredSingle(address: string)
    | DiscoveredSeveral(service: string)
    | ChooseOne
    | StatusFailed(cause: string)
    | IsInitialized
    | IsNotInitialized
    | InitFailed(cause: string)
    | Key(keySet: KeySet, number: nat, key: string)
    | RootToken(token: string)
    | SharesSummary(shares: int, threshold: int)
    | InitializedSuccessfully
    | RecoverySummary(shares: int, threshold: int)

  /** `Ui.Output` or `Ui.Error`. */
  datatype Line = Out(message: Message) | Err(message: Message)

  function KeySetName(keySet: KeySet): string {
    match keySet
    case Unseal => "Unseal"
    case Recovery => "Recovery"
  }

  /** The line that sets VAULT_ADDR: `export` and single quotes, or `set` and
      no quotes on Windows. The address already carries its scheme, and
      "http://" is written in front of it all the same. */
  function ExportText(windows: bool, address: string): string {
    var command := if windows then "set" else "export";
    var quote := if windows then "" else "'";
    "\t" + command + " VAULT_ADDR=" + quote + "http://" + address + quote
  }

  function KeyText(keySet: KeySet, number: nat, key: string): string {
    KeySetName(keySet) + " Key " + NatToString(number) + ": " + key
  }

  /** The text printed for each message. A key line reads back as its
      number and its key. */
  function Text(m: Message): (r: string)
    ensures m.Key? ==> ParseKeyText(m.keySet, r) == Some((m.number, m.key))
  {
    if m.Key? then
      KeyTextRoundTrip(m.keySet, m.number, m.key);
      KeyText(m.keySet, m.number, m.key)
    else FixedText(m)
  }

  /** The text of every message other than a key line. */
  function FixedText(m: Message): string
    requires !m.Key?
  {
    match m
    case ConsulClientFailed(cause) => "failed to create Consul client:" + cause
    case ClientFailed(cause) => "Error initializing client: " + cause
    case DiscoveredNodeProbeFailed(address, cause) =>
      "Error checking initialization status of discovered node: " + address + " err:" + cause
    case DiscoveredInitialized(address) => "Discovered an initialized Vault node at '" + address + "'\n"
    case SetVaultAddr => "Set the following environment variable to operate on the discovered Vault:\n"
    case ExportVaultAddr(windows, address) => ExportText(windows, address)
    case NothingDiscovered(service) => "Failed to discover Vault nodes under the service name '" + service + "'"
    case DiscoveredSingle(address) => "Discovered Vault at '" + address + "'\n"
    case DiscoveredSeveral(service) =>
      "Discovered more than one uninitialized Vaults under the service name '" + service + "'\n"
    case ChooseOne => "To initialize all Vaults, set any *one* of the following and run 'vault init':"
    case StatusFailed(cause) => "Error checking initialization status: " + cause
    case IsInitialized => "Vault has been initialized"
    case IsNotInitialized => "Vault is not initialized"
    case InitFailed(cause) => "Error initializing Vault: " + cause
    case RootToken(token) => "Initial Root Token: " + token
    case SharesSummary(shares, threshold) => SharesSummaryText(shares, threshold)
    case InitializedSuccessfully => "\nVault initialized successfully."
    case RecoverySummary(shares, threshold) => RecoverySummaryText(shares, threshold)
  }

  /** The closing message when no key shares are stored on the server. */
  function SharesSummaryText(shares: int, threshold: int): string {
    "\nVault initialized with " + IntToString(shares) + " keys and a key threshold of " + IntToString(threshold)
    + ". Please\nsecurely distribute the above keys. When the Vault is re-sealed,\n"
    + "restarted, or stopped, you must provide at least " + IntToString(threshold)
    + " of these keys\nto unseal it again.\n\n"
    + "Vault does not store the master key. Without at least " + IntToString(threshold)
    + " keys,\nyour Vault will remain permanently sealed."
  }

  /** The closing message about the recovery keys. */
  function RecoverySummaryText(shares: int, threshold: int): string {
    "\nRecovery key initialized with " + IntToString(shares) + " keys and a key threshold of "
    + IntToString(threshold) + ". Please\nsecurely distribute the above keys."
  }

  /** Reads a printed key line back: its number and the key it shows. */
  function ParseKeyText(keySet: KeySet, text: string): Option<(nat, string)> {
    var prefix := KeySetName(keySet) + " Key ";
    if prefix <= text then ParseNumbered(text[|prefix|..]) else None
  }

  /** Reads "<number>: <key>". */
  function ParseNumbered(text: string): Option<(nat, string)> {
    var k := DigitPrefix(text);
    if k == 0 || !(": " <= text[k..]) then None
    else Some((ParseNat(text[..k]), text[k + 2..]))
  }

  lemma {:induction false} NumberedRoundTrip(number: nat, key: string)
    ensures ParseNumbered(NatToString(number) + (": " + key)) == Some((number, key))
  {
    var digits := NatToString(number);
    var text := digits + (": " + key);
    DigitPrefixOfRendering(number, ": " + key);
    assert text[..|digits|] == digits;
    assert text[|digits|..] == ": " + key;
    assert text[|digits| + 2..] == key;
    ParseNatToString(number);
  }

  /** A printed key line gives back exactly its number and its key: the
      numbering and the key survive rendering unchanged. */
  lemma KeyTextRoundTrip(keySet: KeySet, number: nat, key: string)
    ensures ParseKeyText(keySet, KeyText(keySet, number, key)) == Some((number, key))
  {
    var prefix := KeySetName(keySet) + " Key ";
    var rest := NatToString(number) + (": " + key);
    var text := KeyText(keySet, number, key);
    assert text == prefix + rest;
    assert text[|prefix|..] == rest;
    NumberedRoundTrip(number, key);
  }
}
