/**
 * The errors the library returns: the two sentinels of errors.go, a
 * transport failure, a JSON decoding failure, and the plain-text errors
 * built with fmt.Errorf.
 */
module Errors {

  datatype Error =
    | MaybeRegistered
    | IdUnset
    | TransportError(reason: string)
    | JsonError
    | Message(text: string)

  /** The messages of ErrMaybeRegistered and ErrIdUnset. */
  const MaybeRegisteredText: string :=
    "This record is maybe registered at Gehirn DNS.  Use `UpdateResource(IRecord) error` insted of this method"
  const IdUnsetText: string := "Record id is unset"

  /**
   * What the error's Error() method prints: the sentinels' fixed messages
   * (typo included), and for the other errors the text they were built from.
   */
  function Text(e: Error): (t: string)
    ensures e == IdUnset ==> t == IdUnsetText
    ensures e == MaybeRegistered ==> t == MaybeRegisteredText
    ensures e.TransportError? ==> t == e.reason
    ensures e.Message? ==> t == e.text
  {
    match e
    case MaybeRegistered => MaybeRegisteredText
    case IdUnset => IdUnsetText
    case TransportError(reason) => reason
    case JsonError => "json: cannot decode response"
    case Message(text) => text
  }

  /** The two sentinels print differently, so a caller can tell them apart by text as well. */
  lemma SentinelTextsDiffer()
    ensures Text(MaybeRegistered) != Text(IdUnset)
  {
    assert |IdUnsetText| == 18;
    assert |MaybeRegisteredText| > 18;
  }
}
