/** The share-submission record the persistence layer stores. */
module ShareEvents {
  import opened Base

  /** A double-SHA256 digest, kept as its 32 bytes. */
  datatype Hash = Hash(bytes: seq<U8>)

  /** Everything recorded about one share submission: validation outcome,
      channel metadata and the share's header fields. The two floating-point
      fields of the source (nominal hash rate and share work) are not part of
      this model; the wall-clock timestamp is kept as an opaque number. */
  datatype ShareEvent = ShareEvent(
    errorCode: Option<string>,
    extranoncePrefix: seq<U8>,
    isBlockFound: bool,
    isValid: bool,
    nonce: U32,
    ntime: U32,
    rollableExtranonceSize: Option<U16>,
    shareHash: Hash,
    target: seq<U8>,
    templateId: Option<U64>,
    timestamp: nat,
    userIdentity: string,
    version: U32)

  /** The events a persistence backend accepts; shares are the only kind. */
  datatype PersistenceEvent = Share(share: ShareEvent)
}
