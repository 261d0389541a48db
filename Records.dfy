/**
 The recovery records a resource-manager state store holds, as values.

 The payloads (what an application or an attempt carries besides its
 identifier, the AM-RM token secret state, the delegation-token owner data)
 are opaque: the copy passes them through unchanged and never looks inside.
 */
module Records {

  datatype Option<+T> = None | Some(value: T)

  /** Opaque submission and recovery data of one application. */
  type AppRecord(==, !new)

  /** Opaque recovery data of one application attempt. */
  type AttemptRecord(==, !new)

  /** Opaque AM-RM token secret manager state (master keys for AM tokens). */
  type AMRMTokenState(==, !new)

  /** Opaque owner, renewer and issue data of a delegation token identifier. */
  type TokenOwner(==, !new)

  /** Opaque key material of a delegation master key. */
  type KeyBytes(==, !new)

  /** An application is named by the cluster's start time and a counter. */
  datatype ApplicationId = ApplicationId(clusterTimestamp: int, id: int)

  /** An attempt is named by its application and its attempt number (from 1). */
  datatype AttemptId = AttemptId(app: ApplicationId, attempt: int)

  /**
   One application as loaded from a store: its own record and its attempts,
   keyed by attempt identifier. The attempt count is the number of entries.
   */
  datatype ApplicationState = ApplicationState(record: AppRecord, attempts: map<AttemptId, AttemptRecord>)
  {
    function AttemptCount(): nat { |attempts| }
  }

  /** A delegation token identifier carries the sequence number it was minted with. */
  datatype RMDelegationTokenIdentifier = TokenIdent(owner: TokenOwner, sequenceNumber: int)

  datatype DelegationKey = DelegationKey(keyId: int, expiryDate: int, key: KeyBytes)

  /**
   Delegation-token secret manager state: the master keys, the issued tokens
   with their renew dates, and the running sequence number.
   */
  datatype RMDTSecretManagerState = RMDTSecretManagerState(
    masterKeys: set<DelegationKey>,
    tokens: map<RMDelegationTokenIdentifier, int>,
    dtSequenceNumber: int)

  /** A full snapshot of one store, as `loadState` returns it. */
  datatype RMState = RMState(
    apps: map<ApplicationId, ApplicationState>,
    amrmToken: Option<AMRMTokenState>,
    dtState: RMDTSecretManagerState)
}
