/** The values every other module speaks about: identifiers, party records and results. */
module Basics {

  /** A value or nothing; `:-` passes nothing on. */
  datatype Option<+T> = None | Some(value: T) {
    predicate IsFailure() {
      None?
    }

    function PropagateFailure<U>(): Option<U>
      requires None?
    {
      None
    }

    function Extract(): T
      requires Some?
    {
      value
    }
  }

  datatype Result<+T, +E> = Ok(value: T) | Err(error: E)

  type Byte = b: int | 0 <= b < 256

  /** A libp2p peer ID, which is also the ID of the party the peer runs. */
  datatype PeerId = PeerId(text: string)

  /** The party record of tss/pb/party.go. A nil key is None. */
  datatype Party = Party(
    id: PeerId,
    partyKey: Option<int>,
    newPartyKey: Option<int>,
    haveSharedKey: bool,
    index: int)
  {
    /** The part of a party record that only a reshare changes. */
    function Identity(): (PeerId, Option<int>, Option<int>) {
      (id, partyKey, newPartyKey)
    }
  }

  /** The zero value of a party record: what a freshly launched peer holds. */
  const BLANK := Party(PeerId(""), None, None, false, 0)
}
