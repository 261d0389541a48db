/**
 An abstract resource-manager state store.

 Every backend (file system, ZooKeeper, in-memory, no-op) is modelled by one
 class that keeps what it is given: a version flag, the applications, the
 attempts, the AM-RM token slot, the delegation tokens, the master keys, the
 running delegation-token sequence number and a stopped flag. Every call made
 to a store is appended to a journal shared by the stores of one run, so that
 the order of calls across the source and the destination is observable.
 */
module StateStore {
  import opened Records
  import opened StoreNames

  /** A delegation token as a store keeps it: its renew date and its sequence number. */
  datatype TokenEntry = TokenEntry(renewDate: int, sequenceNumber: int)

  /** The calls a store receives. */
  datatype Call =
    | StoreVersion
    | LoadState
    | StoreApplication(appId: ApplicationId, appData: AppRecord)
    | StoreAttempt(attemptId: AttemptId, attemptData: AttemptRecord)
    | StoreAMRMToken(amrmState: Option<AMRMTokenState>, isUpdate: bool)
    | StoreDelegationToken(tokenId: RMDelegationTokenIdentifier, renewDate: int, latestSequenceNumber: int)
    | StoreMasterKey(key: DelegationKey)
    | Stop

  /** A call, together with the store that received it. */
  datatype Event = Event(store: StoreKind, call: Call)

  /** The durable contents of a store. */
  datatype StoreContent = StoreContent(
    versioned: bool,
    apps: map<ApplicationId, AppRecord>,
    attempts: map<AttemptId, AttemptRecord>,
    amrmToken: Option<AMRMTokenState>,
    tokens: map<RMDelegationTokenIdentifier, TokenEntry>,
    masterKeys: set<DelegationKey>,
    dtSequenceNumber: int)

  /** A store that has never been written. */
  const EmptyContent: StoreContent :=
    StoreContent(false, map[], map[], None, map[], {}, 0)

  /** The calls of one store, as events of that store. */
  function Tagged(kind: StoreKind, calls: seq<Call>): (events: seq<Event>)
    ensures |events| == |calls|
    ensures forall i :: 0 <= i < |calls| ==> events[i] == Event(kind, calls[i])
  {
    seq(|calls|, i requires 0 <= i < |calls| => Event(kind, calls[i]))
  }

  /** The attempts of application `id` among a store's attempts. */
  function AttemptsOf(attempts: map<AttemptId, AttemptRecord>, id: ApplicationId): (m: map<AttemptId, AttemptRecord>)
    ensures forall aid :: aid in m <==> aid in attempts && aid.app == id
    ensures forall aid :: aid in m ==> m[aid] == attempts[aid]
  {
    map aid | aid in attempts && aid.app == id :: attempts[aid]
  }

  /**
   The snapshot `loadState` returns: every application with the attempts filed
   under it, the AM-RM token state, and the delegation-token state with the
   renew date of every token and the store's running sequence number.
   */
  function Snapshot(c: StoreContent): (s: RMState)
    ensures s.apps.Keys == c.apps.Keys
    ensures forall id :: id in s.apps ==>
      s.apps[id] == ApplicationState(c.apps[id], AttemptsOf(c.attempts, id))
    ensures s.amrmToken == c.amrmToken
    ensures s.dtState.masterKeys == c.masterKeys
    ensures s.dtState.tokens.Keys == c.tokens.Keys
    ensures forall t :: t in s.dtState.tokens ==> s.dtState.tokens[t] == c.tokens[t].renewDate
    ensures s.dtState.dtSequenceNumber == c.dtSequenceNumber
  {
    RMState(
      map id | id in c.apps :: ApplicationState(c.apps[id], AttemptsOf(c.attempts, id)),
      c.amrmToken,
      RMDTSecretManagerState(c.masterKeys, map t | t in c.tokens :: c.tokens[t].renewDate, c.dtSequenceNumber))
  }

  // What each store write does to the snapshot a later load returns.

  /** Stamping the version is invisible to a load. */
  lemma LoadAfterStoreVersion(c: StoreContent)
    ensures Snapshot(c.(versioned := true)) == Snapshot(c)
  {
  }

  /**
   After an application record is written, the application loads with that
   record and the attempts already filed under it; every other application
   loads as before.
   */
  lemma LoadAfterStoreApplication(c: StoreContent, id: ApplicationId, r: AppRecord)
    ensures var s0, s := Snapshot(c), Snapshot(c.(apps := c.apps[id := r]));
      && s.apps.Keys == s0.apps.Keys + {id}
      && s.apps[id] == ApplicationState(r, AttemptsOf(c.attempts, id))
      && (forall other :: other in s0.apps && other != id ==> s.apps[other] == s0.apps[other])
      && s.amrmToken == s0.amrmToken && s.dtState == s0.dtState
  {
  }

  /**
   After an attempt record is written, its application (if stored) loads
   with that attempt added or replaced; every other application loads as
   before. An attempt of an application that is not stored does not show.
   */
  lemma LoadAfterStoreAttempt(c: StoreContent, aid: AttemptId, r: AttemptRecord)
    ensures var s0, s := Snapshot(c), Snapshot(c.(attempts := c.attempts[aid := r]));
      && s.apps.Keys == s0.apps.Keys
      && (aid.app in s0.apps ==>
            s.apps[aid.app] == s0.apps[aid.app].(attempts := s0.apps[aid.app].attempts[aid := r]))
      && (forall other :: other in s0.apps && other != aid.app ==> s.apps[other] == s0.apps[other])
      && (aid.app !in s0.apps ==> s.apps == s0.apps)
      && s.amrmToken == s0.amrmToken && s.dtState == s0.dtState
  {
    var c1 := c.(attempts := c.attempts[aid := r]);
    assert AttemptsOf(c1.attempts, aid.app) == AttemptsOf(c.attempts, aid.app)[aid := r];
    forall other | other != aid.app
      ensures AttemptsOf(c1.attempts, other) == AttemptsOf(c.attempts, other)
    {
    }
  }

  /** After the AM-RM token state is written, it loads as that state; nothing else changes. */
  lemma LoadAfterStoreAMRMToken(c: StoreContent, state: Option<AMRMTokenState>)
    ensures var s0, s := Snapshot(c), Snapshot(c.(amrmToken := state));
      s == s0.(amrmToken := state)
  {
  }

  /**
   After a token is written with a renew date and a number, it loads with
   that renew date and the number loads as the running sequence number;
   nothing else changes.
   */
  lemma LoadAfterStoreToken(c: StoreContent, t: RMDelegationTokenIdentifier, renewDate: int, n: int)
    ensures var s0, s := Snapshot(c), Snapshot(c.(tokens := c.tokens[t := TokenEntry(renewDate, n)], dtSequenceNumber := n));
      && s.dtState.tokens == s0.dtState.tokens[t := renewDate]
      && s.dtState.dtSequenceNumber == n
      && s.dtState.masterKeys == s0.dtState.masterKeys
      && s.apps == s0.apps && s.amrmToken == s0.amrmToken
  {
  }

  /** After a master key is written, the keys load with it added; nothing else changes. */
  lemma LoadAfterStoreMasterKey(c: StoreContent, k: DelegationKey)
    ensures var s0, s := Snapshot(c), Snapshot(c.(masterKeys := c.masterKeys + {k}));
      s == s0.(dtState := s0.dtState.(masterKeys := s0.dtState.masterKeys + {k}))
  {
  }

  lemma TaggedAppend(kind: StoreKind, xs: seq<Call>, ys: seq<Call>)
    ensures Tagged(kind, xs + ys) == Tagged(kind, xs) + Tagged(kind, ys)
  {
  }

  /** One more call of `kind` recorded after `events + Tagged(kind, calls)`. */
  lemma JournalStep(events: seq<Event>, kind: StoreKind, calls: seq<Call>, c: Call)
    ensures events + Tagged(kind, calls) + [Event(kind, c)] == events + Tagged(kind, calls + [c])
  {
    TaggedAppend(kind, calls, [c]);
    assert Tagged(kind, [c]) == [Event(kind, c)];
  }

  /** The calls `ys` of `kind` recorded after `events + Tagged(kind, xs)`. */
  lemma JournalExtend(events: seq<Event>, kind: StoreKind, xs: seq<Call>, ys: seq<Call>)
    ensures events + Tagged(kind, xs) + Tagged(kind, ys) == events + Tagged(kind, xs + ys)
  {
    TaggedAppend(kind, xs, ys);
  }

  lemma JournalStart(events: seq<Event>, kind: StoreKind)
    ensures events + Tagged(kind, []) == events
  {
    assert Tagged(kind, []) == [];
  }

  /** The record of every call made to the stores of one run, in order. */
  class Journal {
    var events: seq<Event>

    constructor ()
      ensures events == []
    {
      events := [];
    }
  }

  /** One store handle, as the copy engine sees every backend. */
  class RMStateStore {
    const kind: StoreKind
    const journal: Journal
    var versioned: bool
    var apps: map<ApplicationId, AppRecord>
    var attempts: map<AttemptId, AttemptRecord>
    var amrmToken: Option<AMRMTokenState>
    var tokens: map<RMDelegationTokenIdentifier, TokenEntry>
    var masterKeys: set<DelegationKey>
    var dtSequenceNumber: int
    var stopped: bool

    function Content(): StoreContent
      reads this
    {
      StoreContent(versioned, apps, attempts, amrmToken, tokens, masterKeys, dtSequenceNumber)
    }

    /** A started handle on a backend whose durable contents are `persisted`. */
    constructor (kind: StoreKind, persisted: StoreContent, journal: Journal)
      ensures this.kind == kind && this.journal == journal
      ensures Content() == persisted && !stopped
    {
      this.kind := kind;
      this.journal := journal;
      versioned := persisted.versioned;
      apps := persisted.apps;
      attempts := persisted.attempts;
      amrmToken := persisted.amrmToken;
      tokens := persisted.tokens;
      masterKeys := persisted.masterKeys;
      dtSequenceNumber := persisted.dtSequenceNumber;
      stopped := false;
    }

    method StoreVersion()
      modifies this, journal
      ensures Content() == old(Content()).(versioned := true) && stopped == old(stopped)
      ensures journal.events == old(journal.events) + [Event(kind, Call.StoreVersion)]
    {
      versioned := true;
      journal.events := journal.events + [Event(kind, Call.StoreVersion)];
    }

    method LoadState() returns (state: RMState)
      modifies journal
      ensures state == Snapshot(Content())
      ensures journal.events == old(journal.events) + [Event(kind, Call.LoadState)]
    {
      state := Snapshot(Content());
      journal.events := journal.events + [Event(kind, Call.LoadState)];
    }

    method StoreApplicationStateInternal(appId: ApplicationId, data: AppRecord)
      modifies this, journal
      ensures Content() == old(Content()).(apps := old(apps)[appId := data]) && stopped == old(stopped)
      ensures journal.events == old(journal.events) + [Event(kind, StoreApplication(appId, data))]
    {
      apps := apps[appId := data];
      journal.events := journal.events + [Event(kind, StoreApplication(appId, data))];
    }

    method StoreApplicationAttemptStateInternal(attemptId: AttemptId, data: AttemptRecord)
      modifies this, journal
      ensures Content() == old(Content()).(attempts := old(attempts)[attemptId := data]) && stopped == old(stopped)
      ensures journal.events == old(journal.events) + [Event(kind, StoreAttempt(attemptId, data))]
    {
      attempts := attempts[attemptId := data];
      journal.events := journal.events + [Event(kind, StoreAttempt(attemptId, data))];
    }

    method StoreOrUpdateAMRMTokenSecretManagerState(state: Option<AMRMTokenState>, isUpdate: bool)
      modifies this, journal
      ensures Content() == old(Content()).(amrmToken := state) && stopped == old(stopped)
      ensures journal.events == old(journal.events) + [Event(kind, StoreAMRMToken(state, isUpdate))]
    {
      amrmToken := state;
      journal.events := journal.events + [Event(kind, StoreAMRMToken(state, isUpdate))];
    }

    /**
     Stores a delegation token with its renew date; the number passed
     becomes the store's running delegation-token sequence number.
     */
    method StoreRMDelegationTokenAndSequenceNumber(tokenId: RMDelegationTokenIdentifier, renewDate: int, latestSequenceNumber: int)
      modifies this, journal
      ensures Content() == old(Content()).(
        tokens := old(tokens)[tokenId := TokenEntry(renewDate, latestSequenceNumber)],
        dtSequenceNumber := latestSequenceNumber)
      ensures stopped == old(stopped)
      ensures journal.events == old(journal.events) + [Event(kind, StoreDelegationToken(tokenId, renewDate, latestSequenceNumber))]
    {
      tokens := tokens[tokenId := TokenEntry(renewDate, latestSequenceNumber)];
      dtSequenceNumber := latestSequenceNumber;
      journal.events := journal.events + [Event(kind, StoreDelegationToken(tokenId, renewDate, latestSequenceNumber))];
    }

    method StoreRMDTMasterKey(key: DelegationKey)
      modifies this, journal
      ensures Content() == old(Content()).(masterKeys := old(masterKeys) + {key}) && stopped == old(stopped)
      ensures journal.events == old(journal.events) + [Event(kind, StoreMasterKey(key))]
    {
      masterKeys := masterKeys + {key};
      journal.events := journal.events + [Event(kind, StoreMasterKey(key))];
    }

    method Stop()
      modifies this, journal
      ensures Content() == old(Content()) && stopped
      ensures journal.events == old(journal.events) + [Event(kind, Call.Stop)]
    {
      stopped := true;
      journal.events := journal.events + [Event(kind, Call.Stop)];
    }
  }
}
