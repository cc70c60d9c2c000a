/**
 * The "Connect Phantom" button. The injected browser wallet is reduced to the
 * three ways a connection attempt can end.
 */
module Wallet {
  import opened Wrappers
  import opened Numbers
  import opened LogBuffer

  /** What the wallet provider does when asked to connect. */
  datatype Provider =
    | NotInstalled           // `window.solana?.isPhantom` is not truthy
    | Approved(publicKey: string)  // `connect()` resolves; the key's string form
    | Rejected               // `connect()` rejects or throws

  const ConnectedLead: string := "Phantom wallet connected: "
  const NotFoundMessage: string := "Phantom wallet not found. Please install the extension."
  const FailedMessage: string := "Connection to Phantom failed."
  const Ellipsis: string := "..."

  /** `key.slice(0, 8)`: the first eight characters, or the whole key if shorter. */
  function ShortKey(key: string): (s: string)
    ensures |s| == Min(|key|, 8)
    ensures s <= key
  {
    if |key| <= 8 then key else key[..8]
  }

  /** The success log line: the lead text, the short key, then an ellipsis. */
  function ConnectedMessage(key: string): (m: string)
    ensures |m| == |ConnectedLead| + Min(|key|, 8) + |Ellipsis|
    ensures m[..|ConnectedLead|] == ConnectedLead
    ensures m[|ConnectedLead|..] == ShortKey(key) + Ellipsis
  {
    ConnectedLead + ShortKey(key) + Ellipsis
  }

  /** Reads the shown key back out of a success log line, if it is one. */
  function ShownKey(m: string): Option<string> {
    if |m| >= |ConnectedLead| + |Ellipsis| && m[..|ConnectedLead|] == ConnectedLead
       && m[|m| - |Ellipsis|..] == Ellipsis
    then Some(m[|ConnectedLead|..|m| - |Ellipsis|])
    else None
  }

  /** The success line shows exactly the first eight characters of the key. */
  lemma ShownKeyRoundTrip(key: string)
    ensures ShownKey(ConnectedMessage(key)) == Some(ShortKey(key))
  {
    var m := ConnectedMessage(key);
    assert m[|m| - |Ellipsis|..] == Ellipsis;
    assert m[|ConnectedLead|..|m| - |Ellipsis|] == ShortKey(key);
  }

  /** What one call of `connectPhantom` does: the new address and the one log entry it emits. */
  datatype Effect = Effect(address: Option<string>, message: string, kind: LogType)

  /**
   * The three-way outcome of `connectPhantom`. Only an approved connection
   * changes the address, to the full key, and logs a `Success` line showing
   * its first eight characters; the other two keep the address and log an
   * `Error` line with their own fixed message.
   */
  function Connect(address: Option<string>, p: Provider): (e: Effect)
    ensures e.kind == Success <==> p.Approved?
    ensures p.Approved? ==>
      e.address == Some(p.publicKey) && ShownKey(e.message) == Some(ShortKey(p.publicKey))
    ensures !p.Approved? ==> e.address == address && e.kind == Error
    ensures p.NotInstalled? ==> e.message == NotFoundMessage
    ensures p.Rejected? ==> e.message == FailedMessage
  {
    match p
    case Approved(key) =>
      ShownKeyRoundTrip(key);
      Effect(Some(key), ConnectedMessage(key), Success)
    case NotInstalled => Effect(address, NotFoundMessage, Error)
    case Rejected => Effect(address, FailedMessage, Error)
  }
}
