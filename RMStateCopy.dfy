/**
 The copy engine and the entry point of the state-copy tool.

 The engine opens a source and a destination store, stamps the destination
 with the state-store version, loads the source's full snapshot, and replays
 it into the destination: the AM-RM token state, every application followed
 by its attempts numbered from 1, every delegation token, every master key;
 then it stops the source and the destination. An application that holds no
 attempt under some number up to its attempt count makes the copy fail at
 that point; the stores are then left open.
 */
module RMStateCopy {
  import opened Records
  import opened StoreNames
  import opened StateStore
  import opened CopyPlan
  import opened CopyRun

  /** Opens and starts the store a nickname selects, on the contents its backend holds. */
  method GetStateStore(kind: StoreKind, persisted: StoreContent, journal: Journal) returns (store: RMStateStore)
    ensures fresh(store)
    ensures store.kind == kind && store.journal == journal
    ensures store.Content() == persisted && !store.stopped
  {
    store := new RMStateStore(kind, persisted, journal);
  }

  /** Writes the AM-RM token secret manager state to the destination as a first store, not an update. */
  method CopyAMRMTokenState(tokenState: Option<AMRMTokenState>, dest: RMStateStore)
    modifies dest, dest.journal
    ensures dest.Content() == old(dest.Content()).(amrmToken := tokenState)
    ensures dest.stopped == old(dest.stopped)
    ensures dest.journal.events == old(dest.journal.events) + [Event(dest.kind, StoreAMRMToken(tokenState, false))]
  {
    dest.StoreOrUpdateAMRMTokenSecretManagerState(tokenState, false);
  }

  /**
   The order a for-each loop visits the elements of a hash-based collection
   in: some enumeration of them, each exactly once. Which one is left open.
   */
  method Iteration<T(==)>(s: set<T>) returns (order: seq<T>)
    ensures Enumerates(order, s)
  {
    var remaining := s;
    order := [];
    while remaining != {}
      invariant remaining <= s
      invariant forall x :: x in order ==> x in s && x !in remaining
      invariant forall x :: x in s ==> x in order || x in remaining
      invariant Distinct(order)
      invariant |order| + |remaining| == |s|
      decreases |remaining|
    {
      var x :| x in remaining;
      order := order + [x];
      remaining := remaining - {x};
    }
  }

  /**
   Writes every application of `appStates` to the destination, each followed
   by its attempts 1, 2, ... up to its attempt count. Returns false when an
   application holds no attempt under one of those numbers: building the
   attempt's record from a missing attempt fails, and nothing further is
   written. `order` is the order the applications were visited in.
   */
  method CopyAppState(appStates: map<ApplicationId, ApplicationState>, dest: RMStateStore)
    returns (ok: bool, ghost order: seq<ApplicationId>)
    modifies dest, dest.journal
    ensures forall id :: id in order ==> id in appStates
    ensures ok <==> AllAttemptsNumbered(appStates)
    ensures ok ==> Enumerates(order, appStates.Keys)
    ensures !ok ==> AbortedAt(order, appStates)
    ensures dest.journal.events == old(dest.journal.events) + Tagged(dest.kind, AppsCalls(order, appStates))
    ensures dest.Content() == old(dest.Content()).(
      apps := old(dest.apps) + AppRecords(order, appStates),
      attempts := old(dest.attempts) + CopiedAttempts(order, appStates))
    ensures dest.stopped == old(dest.stopped)
  {
    ghost var events0 := dest.journal.events;
    ghost var content0 := dest.Content();
    var entries := Iteration(appStates.Keys);
    AppsStart(events0, dest.kind, content0, entries, appStates);
    for k := 0 to |entries|
      invariant forall j :: 0 <= j < k ==> AttemptsNumbered(entries[j], appStates[entries[j]])
      invariant dest.journal.events == events0 + Tagged(dest.kind, AppsCalls(entries[..k], appStates))
      invariant dest.Content() == content0.(
        apps := content0.apps + AppRecords(entries[..k], appStates),
        attempts := content0.attempts + CopiedAttempts(entries[..k], appStates))
      invariant dest.stopped == old(dest.stopped)
    {
      var appId := entries[k];
      var appState := appStates[appId];
      AppsStep(events0, dest.kind, content0, entries, k, appStates);
      var copied := CopyApplication(appId, appState, dest);
      if !copied {
        PrefixAborted(entries, k, appStates);
        order := entries[..k + 1];
        ok := false;
        return;
      }
    }
    assert entries[..|entries|] == entries;
    order := entries;
    ok := true;
  }

  /**
   The body of the application loop of `CopyAppState`: writes one application,
   then its attempts in number order, up to the first number it holds no
   attempt under. Returns whether every number up to the attempt count was
   present.
   */
  method CopyApplication(appId: ApplicationId, appState: ApplicationState, dest: RMStateStore)
    returns (ok: bool)
    modifies dest, dest.journal
    ensures ok <==> AttemptsNumbered(appId, appState)
    ensures dest.journal.events == old(dest.journal.events) + Tagged(dest.kind, AppCalls(appId, appState))
    ensures dest.Content() == old(dest.Content()).(
      apps := old(dest.apps)[appId := appState.record],
      attempts := old(dest.attempts) + AttemptRecords(appId, appState, Numbered(appId, appState)))
    ensures dest.stopped == old(dest.stopped)
  {
    ghost var events0 := dest.journal.events;
    ghost var attempts0 := dest.attempts;
    dest.StoreApplicationStateInternal(appId, appState.record);
    ghost var head := [StoreApplication(appId, appState.record)];
    AttemptsStart(events0, dest.kind, attempts0, appId, appState);
    ghost var content1 := dest.Content();
    var i := 0;
    while i < appState.AttemptCount()
      invariant 0 <= i <= Numbered(appId, appState)
      invariant dest.journal.events == events0 + Tagged(dest.kind, head + AttemptCalls(appId, appState, i))
      invariant dest.Content() == content1.(attempts := attempts0 + AttemptRecords(appId, appState, i))
      invariant dest.stopped == old(dest.stopped)
      decreases appState.AttemptCount() - i
    {
      var attemptId := AttemptId(appId, i + 1);
      if attemptId !in appState.attempts {
        // No attempt under this number: its record cannot be built and the copy fails.
        return false;
      }
      var attemptState := appState.attempts[attemptId];
      AttemptStep(events0, dest.kind, head, attempts0, appId, appState, i);
      dest.StoreApplicationAttemptStateInternal(attemptId, attemptState);
      i := i + 1;
    }
    return true;
  }

  /** The journal and the contents before any application of `entries` is copied. */
  lemma AppsStart(events0: seq<Event>, kind: StoreKind, content0: StoreContent,
                  entries: seq<ApplicationId>, apps: map<ApplicationId, ApplicationState>)
    requires forall x :: x in entries ==> x in apps
    ensures events0 + Tagged(kind, AppsCalls(entries[..0], apps)) == events0
    ensures content0.(
        apps := content0.apps + AppRecords(entries[..0], apps),
        attempts := content0.attempts + CopiedAttempts(entries[..0], apps)) == content0
  {
    assert entries[..0] == [];
    JournalStart(events0, kind);
    UnionEmpty(content0.apps);
    UnionEmpty(content0.attempts);
  }

  /** The journal and the contents after one more application of `entries` is copied. */
  lemma AppsStep(events0: seq<Event>, kind: StoreKind, content0: StoreContent,
                 entries: seq<ApplicationId>, k: nat, apps: map<ApplicationId, ApplicationState>)
    requires forall x :: x in entries ==> x in apps
    requires k < |entries|
    ensures forall x :: x in entries[..k + 1] ==> x in apps
    ensures events0 + Tagged(kind, AppsCalls(entries[..k], apps)) + Tagged(kind, AppCalls(entries[k], apps[entries[k]])) ==
      events0 + Tagged(kind, AppsCalls(entries[..k + 1], apps))
    ensures var c := content0.(
        apps := content0.apps + AppRecords(entries[..k], apps),
        attempts := content0.attempts + CopiedAttempts(entries[..k], apps));
      var id := entries[k];
      c.(apps := c.apps[id := apps[id].record], attempts := c.attempts + AttemptRecords(id, apps[id], Numbered(id, apps[id])))
      == content0.(
        apps := content0.apps + AppRecords(entries[..k + 1], apps),
        attempts := content0.attempts + CopiedAttempts(entries[..k + 1], apps))
  {
    var id := entries[k];
    AppsPrefix(entries, k, apps);
    JournalExtend(events0, kind, AppsCalls(entries[..k], apps), AppCalls(id, apps[id]));
    UpdateAfterUnion(content0.apps, AppRecords(entries[..k], apps), id, apps[id].record);
    UnionAssociative(content0.attempts, CopiedAttempts(entries[..k], apps),
      AttemptRecords(id, apps[id], Numbered(id, apps[id])));
  }

  /** The journal and the attempts once the record of application `id` alone is copied. */
  lemma AttemptsStart(events0: seq<Event>, kind: StoreKind, attempts0: map<AttemptId, AttemptRecord>,
                      id: ApplicationId, a: ApplicationState)
    ensures events0 + [Event(kind, StoreApplication(id, a.record))] ==
      events0 + Tagged(kind, [StoreApplication(id, a.record)] + AttemptCalls(id, a, 0))
    ensures attempts0 + AttemptRecords(id, a, 0) == attempts0
  {
    var head := [StoreApplication(id, a.record)];
    AppendEmpty(head);
    assert Tagged(kind, head) == [Event(kind, StoreApplication(id, a.record))];
    UnionEmpty(attempts0);
  }

  /** The journal and the attempts after attempt `i + 1` of application `id` is copied. */
  lemma AttemptStep(events0: seq<Event>, kind: StoreKind, head: seq<Call>, attempts0: map<AttemptId, AttemptRecord>,
                    id: ApplicationId, a: ApplicationState, i: nat)
    requires forall j :: 1 <= j <= i + 1 ==> AttemptId(id, j) in a.attempts
    ensures var aid := AttemptId(id, i + 1);
      events0 + Tagged(kind, head + AttemptCalls(id, a, i)) + [Event(kind, StoreAttempt(aid, a.attempts[aid]))] ==
      events0 + Tagged(kind, head + AttemptCalls(id, a, i + 1))
    ensures var aid := AttemptId(id, i + 1);
      (attempts0 + AttemptRecords(id, a, i))[aid := a.attempts[aid]] == attempts0 + AttemptRecords(id, a, i + 1)
  {
    var aid := AttemptId(id, i + 1);
    JournalStep(events0, kind, head + AttemptCalls(id, a, i), StoreAttempt(aid, a.attempts[aid]));
    assert head + AttemptCalls(id, a, i + 1) == (head + AttemptCalls(id, a, i)) + [StoreAttempt(aid, a.attempts[aid])];
    UpdateAfterUnion(attempts0, AttemptRecords(id, a, i), aid, a.attempts[aid]);
  }

  /** The applications visited up to one with a gap in its attempt numbers. */
  lemma PrefixAborted(entries: seq<ApplicationId>, k: nat, apps: map<ApplicationId, ApplicationState>)
    requires k < |entries|
    requires Enumerates(entries, apps.Keys)
    requires forall j :: 0 <= j < k ==> AttemptsNumbered(entries[j], apps[entries[j]])
    requires !AttemptsNumbered(entries[k], apps[entries[k]])
    ensures AbortedAt(entries[..k + 1], apps)
  {
  }

  /**
   Writes every delegation token of `dtState` to the destination with its
   renew date and its own sequence number, then every master key. The
   snapshot's running sequence number is read but not written. `tokenOrder`
   and `keyOrder` are the orders the tokens and keys were visited in.
   */
  method CopyRMDTState(dtState: RMDTSecretManagerState, dest: RMStateStore)
    returns (ghost tokenOrder: seq<RMDelegationTokenIdentifier>, ghost keyOrder: seq<DelegationKey>)
    modifies dest, dest.journal
    ensures Enumerates(tokenOrder, dtState.tokens.Keys)
    ensures Enumerates(keyOrder, dtState.masterKeys)
    ensures dest.journal.events == old(dest.journal.events)
      + Tagged(dest.kind, TokenCalls(tokenOrder, dtState.tokens)) + Tagged(dest.kind, KeyCalls(keyOrder))
    ensures dest.Content() == old(dest.Content()).(
      tokens := old(dest.tokens) + TokenEntries(tokenOrder, dtState.tokens),
      dtSequenceNumber := LatestSequenceNumber(tokenOrder, old(dest.dtSequenceNumber)),
      masterKeys := old(dest.masterKeys) + KeySet(keyOrder))
    ensures dest.stopped == old(dest.stopped)
  {
    var seqNo := dtState.dtSequenceNumber;
    var masterKeyState := dtState.masterKeys;
    var tokenState := dtState.tokens;
    tokenOrder := CopyTokens(tokenState, dest);
    keyOrder := CopyMasterKeys(masterKeyState, dest);
  }

  /** The token loop of `CopyRMDTState`. */
  method CopyTokens(tokenState: map<RMDelegationTokenIdentifier, int>, dest: RMStateStore)
    returns (ghost tokenOrder: seq<RMDelegationTokenIdentifier>)
    modifies dest, dest.journal
    ensures Enumerates(tokenOrder, tokenState.Keys)
    ensures dest.journal.events == old(dest.journal.events) + Tagged(dest.kind, TokenCalls(tokenOrder, tokenState))
    ensures dest.Content() == old(dest.Content()).(
      tokens := old(dest.tokens) + TokenEntries(tokenOrder, tokenState),
      dtSequenceNumber := LatestSequenceNumber(tokenOrder, old(dest.dtSequenceNumber)))
    ensures dest.stopped == old(dest.stopped)
  {
    ghost var events0 := dest.journal.events;
    ghost var content0 := dest.Content();
    var entries := Iteration(tokenState.Keys);
    TokensStart(events0, dest.kind, content0, entries, tokenState);
    for k := 0 to |entries|
      invariant dest.journal.events == events0 + Tagged(dest.kind, TokenCalls(entries[..k], tokenState))
      invariant dest.Content() == content0.(
        tokens := content0.tokens + TokenEntries(entries[..k], tokenState),
        dtSequenceNumber := LatestSequenceNumber(entries[..k], content0.dtSequenceNumber))
      invariant dest.stopped == old(dest.stopped)
    {
      var rmdtTokenId := entries[k];
      var rmdtTokenRenewDate := tokenState[rmdtTokenId];
      var tokenSeqNo := rmdtTokenId.sequenceNumber;
      TokensStep(events0, dest.kind, content0, entries, k, tokenState);
      dest.StoreRMDelegationTokenAndSequenceNumber(rmdtTokenId, rmdtTokenRenewDate, tokenSeqNo);
    }
    assert entries[..|entries|] == entries;
    tokenOrder := entries;
  }

  /** The master-key loop of `CopyRMDTState`. */
  method CopyMasterKeys(masterKeyState: set<DelegationKey>, dest: RMStateStore)
    returns (ghost keyOrder: seq<DelegationKey>)
    modifies dest, dest.journal
    ensures Enumerates(keyOrder, masterKeyState)
    ensures dest.journal.events == old(dest.journal.events) + Tagged(dest.kind, KeyCalls(keyOrder))
    ensures dest.Content() == old(dest.Content()).(masterKeys := old(dest.masterKeys) + KeySet(keyOrder))
    ensures dest.stopped == old(dest.stopped)
  {
    ghost var events0 := dest.journal.events;
    ghost var content0 := dest.Content();
    var entries := Iteration(masterKeyState);
    KeysStart(events0, dest.kind, content0, entries);
    for k := 0 to |entries|
      invariant dest.journal.events == events0 + Tagged(dest.kind, KeyCalls(entries[..k]))
      invariant dest.Content() == content0.(masterKeys := content0.masterKeys + KeySet(entries[..k]))
      invariant dest.stopped == old(dest.stopped)
    {
      var delegationKey := entries[k];
      KeysStep(events0, dest.kind, content0, entries, k);
      dest.StoreRMDTMasterKey(delegationKey);
    }
    assert entries[..|entries|] == entries;
    keyOrder := entries;
  }

  /** The journal and the contents before any token of `entries` is copied. */
  lemma TokensStart(events0: seq<Event>, kind: StoreKind, content0: StoreContent,
                    entries: seq<RMDelegationTokenIdentifier>, tokens: map<RMDelegationTokenIdentifier, int>)
    requires forall t :: t in entries ==> t in tokens
    ensures events0 + Tagged(kind, TokenCalls(entries[..0], tokens)) == events0
    ensures content0.(
        tokens := content0.tokens + TokenEntries(entries[..0], tokens),
        dtSequenceNumber := LatestSequenceNumber(entries[..0], content0.dtSequenceNumber)) == content0
  {
    assert entries[..0] == [];
    JournalStart(events0, kind);
    UnionEmpty(content0.tokens);
  }

  /** The journal and the contents after one more token of `entries` is copied. */
  lemma TokensStep(events0: seq<Event>, kind: StoreKind, content0: StoreContent,
                   entries: seq<RMDelegationTokenIdentifier>, k: nat, tokens: map<RMDelegationTokenIdentifier, int>)
    requires forall t :: t in entries ==> t in tokens
    requires k < |entries|
    ensures forall t :: t in entries[..k + 1] ==> t in tokens
    ensures var t := entries[k];
      events0 + Tagged(kind, TokenCalls(entries[..k], tokens))
        + [Event(kind, StoreDelegationToken(t, tokens[t], t.sequenceNumber))] ==
      events0 + Tagged(kind, TokenCalls(entries[..k + 1], tokens))
    ensures var c := content0.(
        tokens := content0.tokens + TokenEntries(entries[..k], tokens),
        dtSequenceNumber := LatestSequenceNumber(entries[..k], content0.dtSequenceNumber));
      var t := entries[k];
      c.(tokens := c.tokens[t := TokenEntry(tokens[t], t.sequenceNumber)], dtSequenceNumber := t.sequenceNumber)
      == content0.(
        tokens := content0.tokens + TokenEntries(entries[..k + 1], tokens),
        dtSequenceNumber := LatestSequenceNumber(entries[..k + 1], content0.dtSequenceNumber))
  {
    var t := entries[k];
    assert entries[..k + 1][..k] == entries[..k];
    JournalStep(events0, kind, TokenCalls(entries[..k], tokens), StoreDelegationToken(t, tokens[t], t.sequenceNumber));
    UpdateAfterUnion(content0.tokens, TokenEntries(entries[..k], tokens), t, TokenEntry(tokens[t], t.sequenceNumber));
  }

  /** The journal and the contents after one more key of `entries` is copied. */
  lemma KeysStep(events0: seq<Event>, kind: StoreKind, content0: StoreContent, entries: seq<DelegationKey>, k: nat)
    requires k < |entries|
    ensures events0 + Tagged(kind, KeyCalls(entries[..k])) + [Event(kind, StoreMasterKey(entries[k]))] ==
      events0 + Tagged(kind, KeyCalls(entries[..k + 1]))
    ensures var c := content0.(masterKeys := content0.masterKeys + KeySet(entries[..k]));
      c.(masterKeys := c.masterKeys + {entries[k]}) ==
      content0.(masterKeys := content0.masterKeys + KeySet(entries[..k + 1]))
  {
    assert entries[..k + 1][..k] == entries[..k];
    JournalStep(events0, kind, KeyCalls(entries[..k]), StoreMasterKey(entries[k]));
  }

  /** The journal and the contents before any key of `entries` is copied. */
  lemma KeysStart(events0: seq<Event>, kind: StoreKind, content0: StoreContent, entries: seq<DelegationKey>)
    ensures events0 + Tagged(kind, KeyCalls(entries[..0])) == events0
    ensures content0.(masterKeys := content0.masterKeys + KeySet(entries[..0])) == content0
  {
    assert entries[..0] == [];
    JournalStart(events0, kind);
    assert content0.masterKeys + {} == content0.masterKeys;
  }

  /** Stops a store. */
  method CloseStore(store: RMStateStore)
    modifies store, store.journal
    ensures store.Content() == old(store.Content()) && store.stopped
    ensures store.journal.events == old(store.journal.events) + [Event(store.kind, Call.Stop)]
  {
    store.Stop();
  }

  /**
   Copies the store `sel.source` into the store `sel.destination`, whose
   backends hold `persisted(kind)`. Returns false when the application copy
   fails; the token and key copy and the closing of the stores are then not
   reached. Also returns the two stores and the snapshot loaded; the ghost
   results are the orders the applications, tokens and keys were visited in.
   */
  method CopyStateStores(sel: Selection, persisted: StoreKind -> StoreContent, journal: Journal)
    returns (ok: bool, src: RMStateStore, dest: RMStateStore, state: RMState,
             ghost appOrder: seq<ApplicationId>, ghost tokenOrder: seq<RMDelegationTokenIdentifier>,
             ghost keyOrder: seq<DelegationKey>)
    requires sel.source != sel.destination
    modifies journal
    ensures fresh(src) && fresh(dest) && src != dest
    ensures src.kind == sel.source && dest.kind == sel.destination
    ensures state == Snapshot(persisted(sel.source))
    ensures ok <==> AllAttemptsNumbered(state.apps)
    ensures forall id :: id in appOrder ==> id in state.apps
    ensures forall t :: t in tokenOrder ==> t in state.dtState.tokens
    ensures ok ==> Enumerates(appOrder, state.apps.Keys)
    ensures ok ==> Enumerates(tokenOrder, state.dtState.tokens.Keys)
    ensures ok ==> Enumerates(keyOrder, state.dtState.masterKeys)
    ensures !ok ==> AbortedAt(appOrder, state.apps)
    ensures journal.events == old(journal.events) + RunEvents(sel, state, appOrder, tokenOrder, keyOrder, ok)
    ensures src.Content() == persisted(sel.source) && src.stopped == ok
    ensures dest.Content() == CopiedContent(persisted(sel.destination), state, appOrder, tokenOrder, keyOrder, ok)
    ensures dest.stopped == ok
  {
    ghost var events0 := journal.events;
    src := GetStateStore(sel.source, persisted(sel.source), journal);
    dest := GetStateStore(sel.destination, persisted(sel.destination), journal);
    ghost var before := dest.Content();

    dest.StoreVersion();
    state := src.LoadState();
    ghost var head := [Event(sel.destination, StoreVersion), Event(sel.source, LoadState),
                       Event(sel.destination, StoreAMRMToken(state.amrmToken, false))];

    var tokenState := state.amrmToken;
    CopyAMRMTokenState(tokenState, dest);
    assert journal.events == events0 + head;

    var appState := state.apps;
    ok, appOrder := CopyAppState(appState, dest);
    tokenOrder, keyOrder := [], [];
    if !ok {
      RunJournal(events0, sel, state, appOrder, tokenOrder, keyOrder);
      return;
    }

    var dtState := state.dtState;
    tokenOrder, keyOrder := CopyRMDTState(dtState, dest);

    CloseStore(src);
    CloseStore(dest);
    RunJournal(events0, sel, state, appOrder, tokenOrder, keyOrder);
  }

  /**
   The entry point: `args` must be exactly two valid, different store
   nicknames, and the run copies the first store into the second. The exit
   status is 1 when the arguments are rejected (and no store is touched) or
   when the copy fails, and 0 otherwise. The ghost results are the calls the
   two stores received and the orders the copy took: on success each visits
   every application, token and key once; on failure the applications stop
   at the first one with a gap in its attempt numbers.
   */
  method Run(args: seq<string>, persisted: StoreKind -> StoreContent)
    returns (exitStatus: int, ghost events: seq<Event>,
             ghost appOrder: seq<ApplicationId>, ghost tokenOrder: seq<RMDelegationTokenIdentifier>,
             ghost keyOrder: seq<DelegationKey>)
    ensures exitStatus == 0 || exitStatus == 1
    ensures ValidateArgs(args).Rejected? ==> exitStatus == 1 && events == []
    ensures ValidateArgs(args).Accepted? ==>
      var sel := ValidateArgs(args).value;
      var state := Snapshot(persisted(sel.source));
      && (exitStatus == 0 <==> AllAttemptsNumbered(state.apps))
      && (forall id :: id in appOrder ==> id in state.apps)
      && (forall t :: t in tokenOrder ==> t in state.dtState.tokens)
      && (exitStatus == 0 ==>
            && Enumerates(appOrder, state.apps.Keys)
            && Enumerates(tokenOrder, state.dtState.tokens.Keys)
            && Enumerates(keyOrder, state.dtState.masterKeys))
      && (exitStatus == 1 ==> AbortedAt(appOrder, state.apps))
      && events == RunEvents(sel, state, appOrder, tokenOrder, keyOrder, exitStatus == 0)
  {
    appOrder, tokenOrder, keyOrder := [], [], [];
    match ValidateArgs(args)
    case Rejected(_) =>
      exitStatus, events := 1, [];
    case Accepted(sel) =>
      var journal := new Journal();
      var ok;
      var src, dest, state;
      ok, src, dest, state, appOrder, tokenOrder, keyOrder := CopyStateStores(sel, persisted, journal);
      exitStatus := if ok then 0 else 1;
      events := journal.events;
  }
}
