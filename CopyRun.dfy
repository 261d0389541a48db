/**
 One whole run of the copy, as values: the calls both stores receive, in
 order, and what the destination holds at the end. A run either completes
 (both stores are stopped at the end) or aborts in the application phase,
 when an application has a gap in its attempt numbers.
 */
module CopyRun {
  import opened Records
  import opened StoreNames
  import opened StateStore
  import opened CopyPlan

  /**
   The calls of a run copying `state` from `sel.source` to `sel.destination`:
   the version stamp, the load, the AM-RM token state, the applications and
   their attempts, then (when the run completes) the delegation tokens, the
   master keys, and the two stops.
   */
  function RunEvents(
    sel: Selection, state: RMState,
    appOrder: seq<ApplicationId>, tokenOrder: seq<RMDelegationTokenIdentifier>, keyOrder: seq<DelegationKey>,
    completed: bool): seq<Event>
    requires forall id :: id in appOrder ==> id in state.apps
    requires forall t :: t in tokenOrder ==> t in state.dtState.tokens
  {
    [Event(sel.destination, StoreVersion),
     Event(sel.source, LoadState),
     Event(sel.destination, StoreAMRMToken(state.amrmToken, false))]
    + Tagged(sel.destination, AppsCalls(appOrder, state.apps))
    + (if completed then Tagged(sel.destination, TokenCalls(tokenOrder, state.dtState.tokens)) else [])
    + (if completed then Tagged(sel.destination, KeyCalls(keyOrder)) else [])
    + (if completed then [Event(sel.source, Stop), Event(sel.destination, Stop)] else [])
  }

  /** The destination's contents after a run that found it holding `before`. */
  function CopiedContent(
    before: StoreContent, state: RMState,
    appOrder: seq<ApplicationId>, tokenOrder: seq<RMDelegationTokenIdentifier>, keyOrder: seq<DelegationKey>,
    completed: bool): StoreContent
    requires forall id :: id in appOrder ==> id in state.apps
    requires forall t :: t in tokenOrder ==> t in state.dtState.tokens
  {
    var c := before.(
      versioned := true,
      amrmToken := state.amrmToken,
      apps := before.apps + AppRecords(appOrder, state.apps),
      attempts := before.attempts + CopiedAttempts(appOrder, state.apps));
    if completed then
      c.(tokens := before.tokens + TokenEntries(tokenOrder, state.dtState.tokens),
         dtSequenceNumber := LatestSequenceNumber(tokenOrder, before.dtSequenceNumber),
         masterKeys := before.masterKeys + KeySet(keyOrder))
    else c
  }

  /** A run's calls appended to what a journal held before, phase by phase. */
  lemma RunJournal(
    events0: seq<Event>, sel: Selection, state: RMState,
    appOrder: seq<ApplicationId>, tokenOrder: seq<RMDelegationTokenIdentifier>, keyOrder: seq<DelegationKey>)
    requires forall id :: id in appOrder ==> id in state.apps
    requires forall t :: t in tokenOrder ==> t in state.dtState.tokens
    ensures events0 + RunEvents(sel, state, appOrder, tokenOrder, keyOrder, false) ==
      events0 + [Event(sel.destination, StoreVersion), Event(sel.source, LoadState),
                 Event(sel.destination, StoreAMRMToken(state.amrmToken, false))]
      + Tagged(sel.destination, AppsCalls(appOrder, state.apps))
    ensures events0 + RunEvents(sel, state, appOrder, tokenOrder, keyOrder, true) ==
      events0 + [Event(sel.destination, StoreVersion), Event(sel.source, LoadState),
                 Event(sel.destination, StoreAMRMToken(state.amrmToken, false))]
      + Tagged(sel.destination, AppsCalls(appOrder, state.apps))
      + Tagged(sel.destination, TokenCalls(tokenOrder, state.dtState.tokens))
      + Tagged(sel.destination, KeyCalls(keyOrder))
      + [Event(sel.source, Stop)] + [Event(sel.destination, Stop)]
  {
    var head := [Event(sel.destination, StoreVersion), Event(sel.source, LoadState),
                 Event(sel.destination, StoreAMRMToken(state.amrmToken, false))];
    var apps := Tagged(sel.destination, AppsCalls(appOrder, state.apps));
    var tokens := Tagged(sel.destination, TokenCalls(tokenOrder, state.dtState.tokens));
    var keys := Tagged(sel.destination, KeyCalls(keyOrder));
    assert RunEvents(sel, state, appOrder, tokenOrder, keyOrder, false) == head + apps;
    Regroup(events0, head, apps, [], [], [], []);
    assert RunEvents(sel, state, appOrder, tokenOrder, keyOrder, true) ==
      head + apps + tokens + keys + ([Event(sel.source, Stop)] + [Event(sel.destination, Stop)]);
    Regroup(events0, head, apps, tokens, keys, [Event(sel.source, Stop)], [Event(sel.destination, Stop)]);
  }

  lemma Regroup<T>(e: seq<T>, h: seq<T>, a: seq<T>, t: seq<T>, k: seq<T>, s1: seq<T>, s2: seq<T>)
    ensures e + (h + a + t + k + (s1 + s2)) == e + h + a + t + k + s1 + s2
    ensures e + (h + a) == e + h + a
  {
  }

  /**
   The phase of a run a call belongs to: version stamp, load, AM-RM token,
   applications and attempts, delegation tokens, master keys, stop of the
   source, stop of the destination.
   */
  function Phase(e: Event, source: StoreKind): nat
  {
    match e.call
    case StoreVersion => 0
    case LoadState => 1
    case StoreAMRMToken(_, _) => 2
    case StoreApplication(_, _) => 3
    case StoreAttempt(_, _) => 3
    case StoreDelegationToken(_, _, _) => 4
    case StoreMasterKey(_) => 5
    case Stop => if e.store == source then 6 else 7
  }

  /** The phase the event at index i of a run has, given where the token, key and stop phases start. */
  function PhaseAt(i: nat, tokensFrom: nat, keysFrom: nat, stopsFrom: nat): nat
  {
    if i < 3 then i
    else if i < tokensFrom then 3
    else if i < keysFrom then 4
    else if i < stopsFrom then 5
    else 6 + (i - stopsFrom)
  }

  /** Every event of `es` is of phase `p` and goes to `store`. */
  predicate InPhase(es: seq<Event>, source: StoreKind, p: nat, store: StoreKind)
  {
    forall i :: 0 <= i < |es| ==> Phase(es[i], source) == p && es[i].store == store
  }

  lemma AppsInPhase(kind: StoreKind, source: StoreKind, order: seq<ApplicationId>, apps: map<ApplicationId, ApplicationState>)
    requires forall id :: id in order ==> id in apps
    ensures InPhase(Tagged(kind, AppsCalls(order, apps)), source, 3, kind)
  {
    AppsCallsWithinCount(order, apps);
  }

  /** Every event of `es` is a token write passing the token's own sequence number. */
  predicate OwnNumbers(es: seq<Event>)
  {
    forall i :: 0 <= i < |es| ==>
      es[i].call.StoreDelegationToken? && es[i].call.latestSequenceNumber == es[i].call.tokenId.sequenceNumber
  }

  lemma TokensInPhase(kind: StoreKind, source: StoreKind, order: seq<RMDelegationTokenIdentifier>, tokens: map<RMDelegationTokenIdentifier, int>)
    requires forall t :: t in order ==> t in tokens
    ensures InPhase(Tagged(kind, TokenCalls(order, tokens)), source, 4, kind)
    ensures OwnNumbers(Tagged(kind, TokenCalls(order, tokens)))
  {
  }

  lemma KeysInPhase(kind: StoreKind, source: StoreKind, order: seq<DelegationKey>)
    ensures InPhase(Tagged(kind, KeyCalls(order)), source, 5, kind)
  {
  }

  /** The layout facts of a run, for any segments of the right phases. */
  lemma SegmentsLayout(
    s: StoreKind, d: StoreKind,
    head: seq<Event>, apps: seq<Event>, tokens: seq<Event>, keys: seq<Event>, stops: seq<Event>)
    requires s != d
    requires |head| == 3 && Phase(head[0], s) == 0 && Phase(head[1], s) == 1 && Phase(head[2], s) == 2
    requires head[0].store == d && head[1].store == s && head[2].store == d
    requires InPhase(apps, s, 3, d) && InPhase(tokens, s, 4, d) && InPhase(keys, s, 5, d) && OwnNumbers(tokens)
    requires stops == [] || stops == [Event(s, Stop), Event(d, Stop)]
    ensures var ev := head + apps + tokens + keys + stops;
      var tokensFrom := 3 + |apps|;
      var keysFrom := tokensFrom + |tokens|;
      var stopsFrom := keysFrom + |keys|;
      && |ev| == stopsFrom + |stops|
      && (forall i :: 0 <= i < |ev| ==> Phase(ev[i], s) == PhaseAt(i, tokensFrom, keysFrom, stopsFrom))
      && (forall i :: 0 <= i < |ev| ==> ev[i].store == (if i == 1 || (stops != [] && i == stopsFrom) then s else d))
      && (forall i :: tokensFrom <= i < keysFrom ==>
            ev[i].call.StoreDelegationToken? && ev[i].call.latestSequenceNumber == ev[i].call.tokenId.sequenceNumber)
  {
    var ev := head + apps + tokens + keys + stops;
    var tokensFrom := 3 + |apps|;
    var keysFrom := tokensFrom + |tokens|;
    var stopsFrom := keysFrom + |keys|;
    forall i | 0 <= i < |ev|
      ensures Phase(ev[i], s) == PhaseAt(i, tokensFrom, keysFrom, stopsFrom)
      ensures ev[i].store == (if i == 1 || (stops != [] && i == stopsFrom) then s else d)
      ensures tokensFrom <= i < keysFrom ==>
        ev[i].call.StoreDelegationToken? && ev[i].call.latestSequenceNumber == ev[i].call.tokenId.sequenceNumber
    {
      if i < 3 {
        assert ev[i] == head[i];
      } else if i < tokensFrom {
        assert ev[i] == apps[i - 3];
      } else if i < keysFrom {
        assert ev[i] == tokens[i - tokensFrom];
      } else if i < stopsFrom {
        assert ev[i] == keys[i - keysFrom];
      } else {
        assert ev[i] == stops[i - stopsFrom];
      }
    }
  }

  /** The phases of `ev` never go backwards. */
  predicate PhasesOrdered(ev: seq<Event>, source: StoreKind)
  {
    forall i, j :: 0 <= i < j < |ev| ==> Phase(ev[i], source) <= Phase(ev[j], source)
  }

  /**
   The roles of the two stores in the events `ev` of a run: the destination
   is stamped with the version first and never again; the source is loaded
   second; the AM-RM token state is written third and only then, with
   isUpdate false; the source receives nothing but the load and a stop; every
   token write passes the token's own sequence number; a completed run ends
   by stopping the source, then the destination, and an aborted one stops
   neither.
   */
  predicate RunShape(ev: seq<Event>, sel: Selection, amrm: Option<AMRMTokenState>, completed: bool)
  {
    && |ev| >= 3
    && ev[0] == Event(sel.destination, StoreVersion)
    && ev[1] == Event(sel.source, LoadState)
    && ev[2] == Event(sel.destination, StoreAMRMToken(amrm, false))
    && (forall i :: 0 <= i < |ev| ==> (ev[i].call.StoreVersion? <==> i == 0))
    && (forall i :: 0 <= i < |ev| ==> (ev[i].call.StoreAMRMToken? <==> i == 2))
    && (forall i :: 0 <= i < |ev| ==> ev[i].store == sel.source || ev[i].store == sel.destination)
    && (forall i :: 0 <= i < |ev| && ev[i].store == sel.source ==> ev[i].call.LoadState? || ev[i].call.Stop?)
    && (forall i :: 0 <= i < |ev| && ev[i].call.StoreDelegationToken? ==>
          ev[i].call.latestSequenceNumber == ev[i].call.tokenId.sequenceNumber)
    && (completed ==> |ev| >= 5 && ev[|ev| - 2] == Event(sel.source, Stop) && ev[|ev| - 1] == Event(sel.destination, Stop))
    && (!completed ==> forall i :: 0 <= i < |ev| ==> !ev[i].call.Stop?)
  }

  lemma SegmentsOrdered(
    s: StoreKind, d: StoreKind,
    head: seq<Event>, apps: seq<Event>, tokens: seq<Event>, keys: seq<Event>, stops: seq<Event>)
    requires s != d
    requires |head| == 3 && Phase(head[0], s) == 0 && Phase(head[1], s) == 1 && Phase(head[2], s) == 2
    requires head[0].store == d && head[1].store == s && head[2].store == d
    requires InPhase(apps, s, 3, d) && InPhase(tokens, s, 4, d) && InPhase(keys, s, 5, d) && OwnNumbers(tokens)
    requires stops == [] || stops == [Event(s, Stop), Event(d, Stop)]
    ensures PhasesOrdered(head + apps + tokens + keys + stops, s)
  {
    SegmentsLayout(s, d, head, apps, tokens, keys, stops);
  }

  lemma SegmentsShape(
    sel: Selection, amrm: Option<AMRMTokenState>, completed: bool,
    apps: seq<Event>, tokens: seq<Event>, keys: seq<Event>, stops: seq<Event>)
    requires sel.source != sel.destination
    requires InPhase(apps, sel.source, 3, sel.destination) && InPhase(tokens, sel.source, 4, sel.destination)
    requires InPhase(keys, sel.source, 5, sel.destination) && OwnNumbers(tokens)
    requires stops == if completed then [Event(sel.source, Stop), Event(sel.destination, Stop)] else []
    ensures RunShape(
      [Event(sel.destination, StoreVersion), Event(sel.source, LoadState), Event(sel.destination, StoreAMRMToken(amrm, false))]
      + apps + tokens + keys + stops, sel, amrm, completed)
  {
    var head := [Event(sel.destination, StoreVersion), Event(sel.source, LoadState), Event(sel.destination, StoreAMRMToken(amrm, false))];
    SegmentsLayout(sel.source, sel.destination, head, apps, tokens, keys, stops);
  }

  /**
   The phases of a run never go backwards: version stamp, load, AM-RM token,
   applications and attempts, tokens, keys, stop of the source, stop of the
   destination.
   */
  lemma RunPhasesOrdered(
    sel: Selection, state: RMState,
    appOrder: seq<ApplicationId>, tokenOrder: seq<RMDelegationTokenIdentifier>, keyOrder: seq<DelegationKey>,
    completed: bool)
    requires sel.source != sel.destination
    requires forall id :: id in appOrder ==> id in state.apps
    requires forall t :: t in tokenOrder ==> t in state.dtState.tokens
    ensures PhasesOrdered(RunEvents(sel, state, appOrder, tokenOrder, keyOrder, completed), sel.source)
  {
    var s, d := sel.source, sel.destination;
    var head := [Event(d, StoreVersion), Event(s, LoadState), Event(d, StoreAMRMToken(state.amrmToken, false))];
    var apps := Tagged(d, AppsCalls(appOrder, state.apps));
    AppsInPhase(d, s, appOrder, state.apps);
    if completed {
      TokensInPhase(d, s, tokenOrder, state.dtState.tokens);
      KeysInPhase(d, s, keyOrder);
      SegmentsOrdered(s, d, head, apps, Tagged(d, TokenCalls(tokenOrder, state.dtState.tokens)),
        Tagged(d, KeyCalls(keyOrder)), [Event(s, Stop), Event(d, Stop)]);
    } else {
      SegmentsOrdered(s, d, head, apps, [], [], []);
    }
  }

  /** The events of every run have the shape `RunShape` describes. */
  lemma RunRoles(
    sel: Selection, state: RMState,
    appOrder: seq<ApplicationId>, tokenOrder: seq<RMDelegationTokenIdentifier>, keyOrder: seq<DelegationKey>,
    completed: bool)
    requires sel.source != sel.destination
    requires forall id :: id in appOrder ==> id in state.apps
    requires forall t :: t in tokenOrder ==> t in state.dtState.tokens
    ensures RunShape(RunEvents(sel, state, appOrder, tokenOrder, keyOrder, completed), sel, state.amrmToken, completed)
  {
    var s, d := sel.source, sel.destination;
    var apps := Tagged(d, AppsCalls(appOrder, state.apps));
    AppsInPhase(d, s, appOrder, state.apps);
    if completed {
      TokensInPhase(d, s, tokenOrder, state.dtState.tokens);
      KeysInPhase(d, s, keyOrder);
      SegmentsShape(sel, state.amrmToken, true, apps, Tagged(d, TokenCalls(tokenOrder, state.dtState.tokens)),
        Tagged(d, KeyCalls(keyOrder)), [Event(s, Stop), Event(d, Stop)]);
    } else {
      SegmentsShape(sel, state.amrmToken, false, apps, [], [], []);
    }
  }

  /**
   A completed run of a snapshot whose attempts are all numbered makes one
   write per application, one per attempt, one per token and one per master
   key, besides the version stamp, the load, the AM-RM token write and the
   two stops.
   */
  lemma RunCounts(
    sel: Selection, state: RMState,
    appOrder: seq<ApplicationId>, tokenOrder: seq<RMDelegationTokenIdentifier>, keyOrder: seq<DelegationKey>)
    requires sel.source != sel.destination
    requires Enumerates(appOrder, state.apps.Keys)
    requires Enumerates(tokenOrder, state.dtState.tokens.Keys)
    requires Enumerates(keyOrder, state.dtState.masterKeys)
    requires AllAttemptsNumbered(state.apps)
    ensures |RunEvents(sel, state, appOrder, tokenOrder, keyOrder, true)| ==
      5 + |state.apps| + SumAttemptCounts(appOrder, state.apps)
      + |state.dtState.tokens| + |state.dtState.masterKeys|
  {
    AppsCallsLength(appOrder, state.apps);
    SumNumberedAllNumbered(appOrder, state.apps);
    assert |state.apps.Keys| == |state.apps|;
    assert |state.dtState.tokens.Keys| == |state.dtState.tokens|;
  }

  /** The applications of `before + copied`: all of both, the copied ones with the source's record. */
  lemma AppsCovered(
    before: map<ApplicationId, AppRecord>, appOrder: seq<ApplicationId>, apps: map<ApplicationId, ApplicationState>)
    requires forall id :: id in appOrder <==> id in apps
    ensures (before + AppRecords(appOrder, apps)).Keys == before.Keys + apps.Keys
    ensures forall id :: id in apps ==> (before + AppRecords(appOrder, apps))[id] == apps[id].record
    ensures forall id :: id in before && id !in apps ==> (before + AppRecords(appOrder, apps))[id] == before[id]
  {
    var copied := AppRecords(appOrder, apps);
    assert forall id :: id in copied <==> id in apps by {
      AppRecordsMeaning(appOrder, apps);
    }
    assert forall id :: id in apps ==> copied[id] == apps[id].record by {
      AppRecordsMeaning(appOrder, apps);
    }
  }

  /** The tokens of `before + copied`: all of both, the copied ones with their renew date and own number. */
  lemma TokensCovered(
    before: map<RMDelegationTokenIdentifier, TokenEntry>, tokenOrder: seq<RMDelegationTokenIdentifier>,
    tokens: map<RMDelegationTokenIdentifier, int>)
    requires forall t :: t in tokenOrder <==> t in tokens
    ensures (before + TokenEntries(tokenOrder, tokens)).Keys == before.Keys + tokens.Keys
    ensures forall t :: t in tokens ==>
      (before + TokenEntries(tokenOrder, tokens))[t] == TokenEntry(tokens[t], t.sequenceNumber)
  {
    var copied := TokenEntries(tokenOrder, tokens);
    assert forall t :: t in copied <==> t in tokens by {
      TokenEntriesMeaning(tokenOrder, tokens);
    }
    assert forall t :: t in tokens ==> copied[t] == TokenEntry(tokens[t], t.sequenceNumber) by {
      TokenEntriesMeaning(tokenOrder, tokens);
    }
  }

  lemma KeysCovered(keyOrder: seq<DelegationKey>, keys: set<DelegationKey>)
    requires Enumerates(keyOrder, keys)
    ensures KeySet(keyOrder) == keys
  {
    KeySetMeaning(keyOrder);
  }

  /** Every application the source holds and every attempt of it is in the union `before + copied`, with the source's record. */
  lemma AttemptsCovered(
    before: map<AttemptId, AttemptRecord>, appOrder: seq<ApplicationId>, apps: map<ApplicationId, ApplicationState>)
    requires Enumerates(appOrder, apps.Keys)
    requires AllAttemptsNumbered(apps)
    ensures forall aid: AttemptId :: aid.app in apps && aid in apps[aid.app].attempts ==>
      aid in before + CopiedAttempts(appOrder, apps) &&
      (before + CopiedAttempts(appOrder, apps))[aid] == apps[aid.app].attempts[aid]
  {
    var copied := CopiedAttempts(appOrder, apps);
    forall aid: AttemptId | aid.app in apps && aid in apps[aid.app].attempts
      ensures aid in before + copied && (before + copied)[aid] == apps[aid.app].attempts[aid]
    {
      NumberedAttemptAt(aid.app, apps[aid.app], aid);
      CopiedAttemptAt(appOrder, apps, aid);
    }
  }

  /**
   What a completed run leaves in the destination: the version stamp, the
   source's AM-RM token state, every source application with its record,
   every attempt 1 to the count of each with its record, every token with its
   renew date and own sequence number, every master key; entries of the
   destination the source does not have are kept.
   */
  lemma CopiedContentMeaning(
    before: StoreContent, state: RMState,
    appOrder: seq<ApplicationId>, tokenOrder: seq<RMDelegationTokenIdentifier>, keyOrder: seq<DelegationKey>)
    requires Enumerates(appOrder, state.apps.Keys)
    requires Enumerates(tokenOrder, state.dtState.tokens.Keys)
    requires Enumerates(keyOrder, state.dtState.masterKeys)
    requires AllAttemptsNumbered(state.apps)
    ensures var after := CopiedContent(before, state, appOrder, tokenOrder, keyOrder, true);
      && after.versioned
      && after.amrmToken == state.amrmToken
      && after.apps.Keys == before.apps.Keys + state.apps.Keys
      && (forall id :: id in state.apps ==> after.apps[id] == state.apps[id].record)
      && (forall id :: id in before.apps && id !in state.apps ==> after.apps[id] == before.apps[id])
      && (forall aid: AttemptId :: aid.app in state.apps && aid in state.apps[aid.app].attempts ==>
            aid in after.attempts && after.attempts[aid] == state.apps[aid.app].attempts[aid])
      && after.tokens.Keys == before.tokens.Keys + state.dtState.tokens.Keys
      && (forall t :: t in state.dtState.tokens ==>
            after.tokens[t] == TokenEntry(state.dtState.tokens[t], t.sequenceNumber))
      && after.masterKeys == before.masterKeys + state.dtState.masterKeys
  {
    AppsCovered(before.apps, appOrder, state.apps);
    AttemptsCovered(before.attempts, appOrder, state.apps);
    TokensCovered(before.tokens, tokenOrder, state.dtState.tokens);
    KeysCovered(keyOrder, state.dtState.masterKeys);
  }

  /** Loading the copied attempts back gives each application exactly its own attempts. */
  lemma AttemptsRestored(appOrder: seq<ApplicationId>, apps: map<ApplicationId, ApplicationState>, id: ApplicationId)
    requires Enumerates(appOrder, apps.Keys)
    requires AllAttemptsNumbered(apps)
    requires id in apps
    ensures AttemptsOf(CopiedAttempts(appOrder, apps), id) == apps[id].attempts
  {
    var got := AttemptsOf(CopiedAttempts(appOrder, apps), id);
    var own := apps[id].attempts;
    forall aid: AttemptId
      ensures aid in got <==> aid in own
      ensures aid in got ==> got[aid] == own[aid]
    {
      CopiedAttemptAt(appOrder, apps, aid);
      if aid in own {
        NumberedAttemptAt(id, apps[id], aid);
      }
    }
  }

  /**
   Copying a snapshot whose attempts are all numbered into a store that was
   never written, and loading the result, gives back the snapshot: the same
   applications with the same attempts, the same AM-RM token state, tokens
   and master keys. The running sequence number is the exception: it is the
   last copied token's own number (or 0 when there are none), whatever the
   snapshot's was.
   */
  lemma CopyRoundTrip(
    state: RMState,
    appOrder: seq<ApplicationId>, tokenOrder: seq<RMDelegationTokenIdentifier>, keyOrder: seq<DelegationKey>)
    requires Enumerates(appOrder, state.apps.Keys)
    requires Enumerates(tokenOrder, state.dtState.tokens.Keys)
    requires Enumerates(keyOrder, state.dtState.masterKeys)
    requires AllAttemptsNumbered(state.apps)
    ensures var loaded := Snapshot(CopiedContent(EmptyContent, state, appOrder, tokenOrder, keyOrder, true));
      && loaded.apps == state.apps
      && loaded.amrmToken == state.amrmToken
      && loaded.dtState.tokens == state.dtState.tokens
      && loaded.dtState.masterKeys == state.dtState.masterKeys
      && loaded.dtState.dtSequenceNumber == LatestSequenceNumber(tokenOrder, 0)
  {
    RoundTripApps(state, appOrder, tokenOrder, keyOrder);
    RoundTripTokens(state, appOrder, tokenOrder, keyOrder);
    KeysCovered(keyOrder, state.dtState.masterKeys);
  }

  lemma RoundTripApps(
    state: RMState,
    appOrder: seq<ApplicationId>, tokenOrder: seq<RMDelegationTokenIdentifier>, keyOrder: seq<DelegationKey>)
    requires Enumerates(appOrder, state.apps.Keys)
    requires forall t :: t in tokenOrder ==> t in state.dtState.tokens
    requires AllAttemptsNumbered(state.apps)
    ensures Snapshot(CopiedContent(EmptyContent, state, appOrder, tokenOrder, keyOrder, true)).apps == state.apps
  {
    var after := CopiedContent(EmptyContent, state, appOrder, tokenOrder, keyOrder, true);
    UnionEmpty(AppRecords(appOrder, state.apps));
    UnionEmpty(CopiedAttempts(appOrder, state.apps));
    AppRecordsMeaning(appOrder, state.apps);
    forall id | id in state.apps
      ensures AttemptsOf(after.attempts, id) == state.apps[id].attempts
    {
      AttemptsRestored(appOrder, state.apps, id);
    }
    LoadedApps(after, state.apps);
  }

  lemma RoundTripTokens(
    state: RMState,
    appOrder: seq<ApplicationId>, tokenOrder: seq<RMDelegationTokenIdentifier>, keyOrder: seq<DelegationKey>)
    requires forall id :: id in appOrder ==> id in state.apps
    requires Enumerates(tokenOrder, state.dtState.tokens.Keys)
    ensures Snapshot(CopiedContent(EmptyContent, state, appOrder, tokenOrder, keyOrder, true)).dtState.tokens ==
      state.dtState.tokens
  {
    UnionEmpty(TokenEntries(tokenOrder, state.dtState.tokens));
    TokenEntriesMeaning(tokenOrder, state.dtState.tokens);
  }

  /** A store holding exactly the records and attempts of `apps` loads back as `apps`. */
  lemma LoadedApps(c: StoreContent, apps: map<ApplicationId, ApplicationState>)
    requires c.apps.Keys == apps.Keys
    requires forall id :: id in apps ==>
      c.apps[id] == apps[id].record && AttemptsOf(c.attempts, id) == apps[id].attempts
    ensures Snapshot(c).apps == apps
  {
  }

  /**
   The running sequence number of the source is never copied: a run whose
   last token was minted with a number below the source's counter leaves the
   destination's counter below the source's.
   */
  lemma SequenceNumberFallsBehind(
    before: StoreContent, state: RMState,
    appOrder: seq<ApplicationId>, tokenOrder: seq<RMDelegationTokenIdentifier>, keyOrder: seq<DelegationKey>)
    requires forall id :: id in appOrder ==> id in state.apps
    requires forall t :: t in tokenOrder ==> t in state.dtState.tokens
    requires tokenOrder != []
    requires tokenOrder[|tokenOrder| - 1].sequenceNumber < state.dtState.dtSequenceNumber
    ensures CopiedContent(before, state, appOrder, tokenOrder, keyOrder, true).dtSequenceNumber
      < state.dtState.dtSequenceNumber
    ensures forall n :: CopiedContent(before, state.(dtState := state.dtState.(dtSequenceNumber := n)),
                                      appOrder, tokenOrder, keyOrder, true)
                        == CopiedContent(before, state, appOrder, tokenOrder, keyOrder, true)
  {
  }
}
