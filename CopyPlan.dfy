/**
 The calls the copy makes on the destination, as values, and what they mean.

 Map and set iteration order is unspecified, so every enumeration the copy
 walks (applications, tokens, master keys) is a parameter `order`; the
 copy methods return the order they took. The lemmas here hold for every
 order: they say which calls are made, in what relative order, how many, and
 what the destination holds once they are applied.
 */
module CopyPlan {
  import opened Records
  import opened StoreNames
  import opened StateStore

  // ---------------------------------------------------------------------------
  // Attempts of one application
  // ---------------------------------------------------------------------------

  /**
   Starting after attempt `n`, how far the attempt numbers 1, 2, ... run
   without a gap, capped at the application's attempt count.
   */
  function NumberedFrom(id: ApplicationId, a: ApplicationState, n: nat): (r: nat)
    requires n <= a.AttemptCount()
    requires forall j :: 1 <= j <= n ==> AttemptId(id, j) in a.attempts
    ensures n <= r <= a.AttemptCount()
    ensures forall j :: 1 <= j <= r ==> AttemptId(id, j) in a.attempts
    ensures r < a.AttemptCount() ==> AttemptId(id, r + 1) !in a.attempts
    decreases a.AttemptCount() - n
  {
    if n < a.AttemptCount() && AttemptId(id, n + 1) in a.attempts then NumberedFrom(id, a, n + 1) else n
  }

  /**
   The number of attempts the copy writes for application `id`: attempts
   1, 2, ... up to the attempt count, stopping before the first number the
   application holds no attempt for.
   */
  function Numbered(id: ApplicationId, a: ApplicationState): (r: nat)
    ensures r <= a.AttemptCount()
    ensures forall j :: 1 <= j <= r ==> AttemptId(id, j) in a.attempts
    ensures r < a.AttemptCount() ==> AttemptId(id, r + 1) !in a.attempts
  {
    NumberedFrom(id, a, 0)
  }

  /** Application `id` holds an attempt under every number from 1 to its attempt count. */
  predicate AttemptsNumbered(id: ApplicationId, a: ApplicationState)
  {
    Numbered(id, a) == a.AttemptCount()
  }

  /** Every application of a snapshot has its attempts numbered 1 to its attempt count. */
  predicate AllAttemptsNumbered(apps: map<ApplicationId, ApplicationState>)
  {
    forall id :: id in apps ==> AttemptsNumbered(id, apps[id])
  }

  /** The writes of attempts 1 to n of application `id`, in that order. */
  function AttemptCalls(id: ApplicationId, a: ApplicationState, n: nat): (calls: seq<Call>)
    requires forall j :: 1 <= j <= n ==> AttemptId(id, j) in a.attempts
    ensures |calls| == n
    ensures forall j :: 0 <= j < n ==>
      calls[j] == StoreAttempt(AttemptId(id, j + 1), a.attempts[AttemptId(id, j + 1)])
  {
    if n == 0 then []
    else AttemptCalls(id, a, n - 1) + [StoreAttempt(AttemptId(id, n), a.attempts[AttemptId(id, n)])]
  }

  /** The writes for one application: its record, then its attempts in number order. */
  function AppCalls(id: ApplicationId, a: ApplicationState): seq<Call>
  {
    [StoreApplication(id, a.record)] + AttemptCalls(id, a, Numbered(id, a))
  }

  /** The writes for the applications of `order`, one application after another. */
  function AppsCalls(order: seq<ApplicationId>, apps: map<ApplicationId, ApplicationState>): seq<Call>
    requires forall id :: id in order ==> id in apps
  {
    if order == [] then []
    else AppsCalls(order[..|order| - 1], apps) + AppCalls(order[|order| - 1], apps[order[|order| - 1]])
  }

  // ---------------------------------------------------------------------------
  // Delegation tokens and master keys
  // ---------------------------------------------------------------------------

  /** The writes of the tokens of `order`, each with its renew date and its own sequence number. */
  function TokenCalls(order: seq<RMDelegationTokenIdentifier>, tokens: map<RMDelegationTokenIdentifier, int>): (calls: seq<Call>)
    requires forall t :: t in order ==> t in tokens
    ensures |calls| == |order|
    ensures forall j :: 0 <= j < |order| ==>
      calls[j] == StoreDelegationToken(order[j], tokens[order[j]], order[j].sequenceNumber)
  {
    if order == [] then []
    else
      var t := order[|order| - 1];
      TokenCalls(order[..|order| - 1], tokens) + [StoreDelegationToken(t, tokens[t], t.sequenceNumber)]
  }

  /** The writes of the master keys of `order`. */
  function KeyCalls(order: seq<DelegationKey>): (calls: seq<Call>)
    ensures |calls| == |order|
    ensures forall j :: 0 <= j < |order| ==> calls[j] == StoreMasterKey(order[j])
  {
    if order == [] then [] else KeyCalls(order[..|order| - 1]) + [StoreMasterKey(order[|order| - 1])]
  }

  /** No element appears twice in `order`. */
  predicate Distinct<T(==)>(order: seq<T>)
  {
    forall i, j :: 0 <= i < j < |order| ==> order[i] != order[j]
  }

  /** `order` lists every element of `s` exactly once. */
  predicate Enumerates<T(==)>(order: seq<T>, s: set<T>)
  {
    && |order| == |s|
    && Distinct(order)
    && (forall x :: x in order ==> x in s)
    && (forall x :: x in s ==> x in order)
  }

  // ---------------------------------------------------------------------------
  // Observing a call sequence
  // ---------------------------------------------------------------------------

  /** The applications written by `calls`, in write order. */
  function ApplicationWrites(calls: seq<Call>): seq<ApplicationId>
  {
    if calls == [] then []
    else
      ApplicationWrites(calls[..|calls| - 1])
      + (if calls[|calls| - 1].StoreApplication? then [calls[|calls| - 1].appId] else [])
  }

  /** The attempt numbers written for application `id` by `calls`, in write order. */
  function AttemptNumbers(calls: seq<Call>, id: ApplicationId): seq<int>
  {
    if calls == [] then []
    else
      var c := calls[|calls| - 1];
      AttemptNumbers(calls[..|calls| - 1], id)
      + (if c.StoreAttempt? && c.attemptId.app == id then [c.attemptId.attempt] else [])
  }

  /** How many attempt writes `calls` holds. */
  function AttemptWriteCount(calls: seq<Call>): nat
  {
    if calls == [] then 0
    else AttemptWriteCount(calls[..|calls| - 1]) + (if calls[|calls| - 1].StoreAttempt? then 1 else 0)
  }

  /** 1, 2, ..., n. */
  function OneTo(n: nat): (r: seq<int>)
    ensures |r| == n && forall i :: 0 <= i < n ==> r[i] == i + 1
  {
    seq(n, i => i + 1)
  }

  /** The attempt counts of the applications of `order`, summed. */
  function SumAttemptCounts(order: seq<ApplicationId>, apps: map<ApplicationId, ApplicationState>): nat
    requires forall id :: id in order ==> id in apps
  {
    if order == [] then 0
    else SumAttemptCounts(order[..|order| - 1], apps) + apps[order[|order| - 1]].AttemptCount()
  }

  /** The attempts the copy writes for the applications of `order`, summed. */
  function SumNumbered(order: seq<ApplicationId>, apps: map<ApplicationId, ApplicationState>): nat
    requires forall id :: id in order ==> id in apps
  {
    if order == [] then 0
    else
      var id := order[|order| - 1];
      SumNumbered(order[..|order| - 1], apps) + Numbered(id, apps[id])
  }

  /** Every attempt write is preceded by a write of that attempt's application. */
  predicate ParentBeforeChild(calls: seq<Call>)
  {
    forall j :: 0 <= j < |calls| && calls[j].StoreAttempt? ==>
      exists i :: 0 <= i < j && calls[i].StoreApplication? && calls[i].appId == calls[j].attemptId.app
  }

  /** The attempt `aid` is among those the copy writes for the applications of `order`. */
  predicate Copied(aid: AttemptId, order: seq<ApplicationId>, apps: map<ApplicationId, ApplicationState>)
  {
    aid.app in order && aid.app in apps && 1 <= aid.attempt <= Numbered(aid.app, apps[aid.app])
  }

  /**
   `order` is how far the application copy got when it met an application
   with a gap in its attempt numbers: distinct applications, all numbered
   except the last.
   */
  predicate AbortedAt(order: seq<ApplicationId>, apps: map<ApplicationId, ApplicationState>)
  {
    && order != []
    && Distinct(order)
    && (forall id :: id in order ==> id in apps)
    && !AttemptsNumbered(order[|order| - 1], apps[order[|order| - 1]])
    && (forall i :: 0 <= i < |order| - 1 ==> AttemptsNumbered(order[i], apps[order[i]]))
  }

  /** The attempt identifiers of application `id` numbered 1 to n. */
  function NumberSet(id: ApplicationId, n: nat): set<AttemptId>
  {
    if n == 0 then {} else NumberSet(id, n - 1) + {AttemptId(id, n)}
  }

  // ---------------------------------------------------------------------------
  // Lemmas: attempt numbering
  // ---------------------------------------------------------------------------

  /** The copy writes all of an application's attempts exactly when they are numbered 1 to the count. */
  lemma NumberedIffContiguous(id: ApplicationId, a: ApplicationState)
    ensures AttemptsNumbered(id, a) <==>
      forall j :: 1 <= j <= a.AttemptCount() ==> AttemptId(id, j) in a.attempts
  {
    var r := Numbered(id, a);
    if r < a.AttemptCount() {
      assert AttemptId(id, r + 1) !in a.attempts;
    }
  }

  lemma {:induction false} NumberSetMeaning(id: ApplicationId, n: nat)
    ensures |NumberSet(id, n)| == n
    ensures forall aid: AttemptId :: aid in NumberSet(id, n) <==> aid.app == id && 1 <= aid.attempt <= n
  {
    if n > 0 {
      NumberSetMeaning(id, n - 1);
      assert AttemptId(id, n) !in NumberSet(id, n - 1);
    }
  }

  /**
   When an application's attempts are numbered, its attempt map holds
   exactly the attempts 1 to the count, and nothing filed under another
   application or another number.
   */
  lemma NumberedAttemptsExact(id: ApplicationId, a: ApplicationState)
    requires AttemptsNumbered(id, a)
    ensures forall aid: AttemptId :: aid in a.attempts <==> aid.app == id && 1 <= aid.attempt <= a.AttemptCount()
  {
    var n := a.AttemptCount();
    var keys := a.attempts.Keys;
    NumberSetMeaning(id, n);
    var s := NumberSet(id, n);
    assert s <= keys by {
      forall aid: AttemptId | aid in s ensures aid in keys {
        assert aid == AttemptId(id, aid.attempt);
      }
    }
    assert |keys| == n;
    var extra := keys - s;
    assert keys == s + extra;
    assert |extra| == 0;
    assert keys == s;
  }

  /** One attempt of a numbered application, on its own. */
  lemma NumberedAttemptAt(id: ApplicationId, a: ApplicationState, aid: AttemptId)
    requires AttemptsNumbered(id, a)
    requires aid in a.attempts
    ensures aid.app == id && 1 <= aid.attempt <= Numbered(id, a)
  {
    NumberedAttemptsExact(id, a);
  }

  lemma ApplicationWritesAppend(xs: seq<Call>, ys: seq<Call>)
    ensures ApplicationWrites(xs + ys) == ApplicationWrites(xs) + ApplicationWrites(ys)
    decreases |ys|
  {
    if ys == [] {
      assert xs + ys == xs;
    } else {
      assert (xs + ys)[..|xs + ys| - 1] == xs + ys[..|ys| - 1];
      ApplicationWritesAppend(xs, ys[..|ys| - 1]);
    }
  }

  lemma AttemptNumbersAppend(xs: seq<Call>, ys: seq<Call>, id: ApplicationId)
    ensures AttemptNumbers(xs + ys, id) == AttemptNumbers(xs, id) + AttemptNumbers(ys, id)
    decreases |ys|
  {
    if ys == [] {
      assert xs + ys == xs;
    } else {
      assert (xs + ys)[..|xs + ys| - 1] == xs + ys[..|ys| - 1];
      AttemptNumbersAppend(xs, ys[..|ys| - 1], id);
    }
  }

  lemma AttemptWriteCountAppend(xs: seq<Call>, ys: seq<Call>)
    ensures AttemptWriteCount(xs + ys) == AttemptWriteCount(xs) + AttemptWriteCount(ys)
    decreases |ys|
  {
    if ys == [] {
      assert xs + ys == xs;
    } else {
      assert (xs + ys)[..|xs + ys| - 1] == xs + ys[..|ys| - 1];
      AttemptWriteCountAppend(xs, ys[..|ys| - 1]);
    }
  }

  /** The attempt writes of application `id` write no application. */
  lemma {:induction false} AttemptCallsWriteNoApplication(id: ApplicationId, a: ApplicationState, n: nat)
    requires forall j :: 1 <= j <= n ==> AttemptId(id, j) in a.attempts
    ensures ApplicationWrites(AttemptCalls(id, a, n)) == []
  {
    if n > 0 {
      var aid := AttemptId(id, n);
      AttemptCallsWriteNoApplication(id, a, n - 1);
      assert ApplicationWrites(AttemptCalls(id, a, n)) == ApplicationWrites(AttemptCalls(id, a, n - 1)) by {
        AttemptObserved(AttemptCalls(id, a, n - 1), aid, a.attempts[aid], id);
      }
    }
  }

  /** Attempts 1 to n of application `id` make n attempt writes. */
  lemma {:induction false} AttemptCallsCount(id: ApplicationId, a: ApplicationState, n: nat)
    requires forall j :: 1 <= j <= n ==> AttemptId(id, j) in a.attempts
    ensures AttemptWriteCount(AttemptCalls(id, a, n)) == n
  {
    if n > 0 {
      var aid := AttemptId(id, n);
      AttemptCallsCount(id, a, n - 1);
      assert AttemptWriteCount(AttemptCalls(id, a, n)) == AttemptWriteCount(AttemptCalls(id, a, n - 1)) + 1 by {
        AttemptObserved(AttemptCalls(id, a, n - 1), aid, a.attempts[aid], id);
      }
    }
  }

  /** The attempt writes of application `id` number its attempts 1 to n, and no other application's. */
  lemma {:induction false} AttemptCallsNumbers(id: ApplicationId, a: ApplicationState, n: nat, other: ApplicationId)
    requires forall j :: 1 <= j <= n ==> AttemptId(id, j) in a.attempts
    ensures AttemptNumbers(AttemptCalls(id, a, n), other) == if other == id then OneTo(n) else []
  {
    if n > 0 {
      var aid := AttemptId(id, n);
      AttemptCallsNumbers(id, a, n - 1, other);
      assert AttemptNumbers(AttemptCalls(id, a, n), other) ==
        AttemptNumbers(AttemptCalls(id, a, n - 1), other) + (if other == id then [n] else []) by {
        AttemptObserved(AttemptCalls(id, a, n - 1), aid, a.attempts[aid], other);
      }
      if other == id {
        assert OneTo(n - 1) + [n] == OneTo(n);
      }
    }
  }

  /** What one more attempt write adds to the observations of `xs`. */
  lemma AttemptObserved(xs: seq<Call>, aid: AttemptId, r: AttemptRecord, other: ApplicationId)
    ensures ApplicationWrites(xs + [StoreAttempt(aid, r)]) == ApplicationWrites(xs)
    ensures AttemptWriteCount(xs + [StoreAttempt(aid, r)]) == AttemptWriteCount(xs) + 1
    ensures AttemptNumbers(xs + [StoreAttempt(aid, r)], other) ==
      AttemptNumbers(xs, other) + (if aid.app == other then [aid.attempt] else [])
  {
    assert (xs + [StoreAttempt(aid, r)])[..|xs|] == xs;
  }

  lemma AppCallsObserved(id: ApplicationId, a: ApplicationState, other: ApplicationId)
    ensures ApplicationWrites(AppCalls(id, a)) == [id]
    ensures AttemptWriteCount(AppCalls(id, a)) == Numbered(id, a)
    ensures AttemptNumbers(AppCalls(id, a), other) == if other == id then OneTo(Numbered(id, a)) else []
  {
    var head := [StoreApplication(id, a.record)];
    var tail := AttemptCalls(id, a, Numbered(id, a));
    assert head[..0] == [];
    assert ApplicationWrites(AppCalls(id, a)) == [id] by {
      AttemptCallsWriteNoApplication(id, a, Numbered(id, a));
      ApplicationWritesAppend(head, tail);
    }
    assert AttemptWriteCount(AppCalls(id, a)) == Numbered(id, a) by {
      AttemptCallsCount(id, a, Numbered(id, a));
      AttemptWriteCountAppend(head, tail);
    }
    assert AttemptNumbers(AppCalls(id, a), other) == if other == id then OneTo(Numbered(id, a)) else [] by {
      AttemptCallsNumbers(id, a, Numbered(id, a), other);
      AttemptNumbersAppend(head, tail, other);
    }
  }

  /** One more application of `order` visited: its writes and its records come after the earlier ones. */
  lemma AppsPrefix(order: seq<ApplicationId>, k: nat, apps: map<ApplicationId, ApplicationState>)
    requires forall x :: x in order ==> x in apps
    requires k < |order|
    ensures forall x :: x in order[..k + 1] ==> x in apps
    ensures AppsCalls(order[..k + 1], apps) == AppsCalls(order[..k], apps) + AppCalls(order[k], apps[order[k]])
    ensures AppRecords(order[..k + 1], apps) == AppRecords(order[..k], apps)[order[k] := apps[order[k]].record]
    ensures CopiedAttempts(order[..k + 1], apps) ==
      CopiedAttempts(order[..k], apps) + AttemptRecords(order[k], apps[order[k]], Numbered(order[k], apps[order[k]]))
  {
    assert order[..k + 1][..k] == order[..k];
  }

  /** The application phase makes one write per application plus one per copied attempt. */
  lemma {:induction false} AppsCallsLength(order: seq<ApplicationId>, apps: map<ApplicationId, ApplicationState>)
    requires forall id :: id in order ==> id in apps
    ensures |AppsCalls(order, apps)| == |order| + SumNumbered(order, apps)
  {
    if order != [] {
      var init := order[..|order| - 1];
      assert forall x :: x in init ==> x in order;
      AppsCallsLength(init, apps);
    }
  }

  /** The applications are written in the order the copy enumerates them, each once per appearance. */
  lemma {:induction false} AppsCallsWriteApplications(order: seq<ApplicationId>, apps: map<ApplicationId, ApplicationState>)
    requires forall id :: id in order ==> id in apps
    ensures ApplicationWrites(AppsCalls(order, apps)) == order
  {
    if order != [] {
      var init, id := order[..|order| - 1], order[|order| - 1];
      assert forall x :: x in init ==> x in order;
      AppsCallsWriteApplications(init, apps);
      ApplicationWritesAppend(AppsCalls(init, apps), AppCalls(id, apps[id]));
      AppCallsObserved(id, apps[id], id);
      assert init + [id] == order;
    }
  }

  /**
   For every application the copy enumerates once, its attempts are written
   with numbers 1, 2, ..., Numbered in increasing order; no other application's
   attempts are written.
   */
  lemma {:induction false} AppsCallsNumberAttempts(order: seq<ApplicationId>, apps: map<ApplicationId, ApplicationState>, id: ApplicationId)
    requires forall x :: x in order ==> x in apps
    requires Distinct(order)
    ensures AttemptNumbers(AppsCalls(order, apps), id) ==
      if id in order then OneTo(Numbered(id, apps[id])) else []
  {
    if order != [] {
      var init, last := order[..|order| - 1], order[|order| - 1];
      assert forall x :: x in init ==> x in order;
      assert order == init + [last];
      AppsCallsNumberAttempts(init, apps, id);
      AttemptNumbersAppend(AppsCalls(init, apps), AppCalls(last, apps[last]), id);
      AppCallsObserved(last, apps[last], id);
      if id == last {
        assert id !in init;
      }
    }
  }

  /** The number of attempt writes is the sum, over the applications, of the attempts written for each. */
  lemma {:induction false} AppsCallsCountAttempts(order: seq<ApplicationId>, apps: map<ApplicationId, ApplicationState>)
    requires forall id :: id in order ==> id in apps
    ensures AttemptWriteCount(AppsCalls(order, apps)) == SumNumbered(order, apps)
  {
    if order != [] {
      var init, id := order[..|order| - 1], order[|order| - 1];
      assert forall x :: x in init ==> x in order;
      AppsCallsCountAttempts(init, apps);
      AttemptWriteCountAppend(AppsCalls(init, apps), AppCalls(id, apps[id]));
      AppCallsObserved(id, apps[id], id);
    }
  }

  /** When every attempt is numbered, the attempts written sum to the attempt counts. */
  lemma {:induction false} SumNumberedAllNumbered(order: seq<ApplicationId>, apps: map<ApplicationId, ApplicationState>)
    requires forall id :: id in order ==> id in apps
    requires forall id :: id in order ==> AttemptsNumbered(id, apps[id])
    ensures SumNumbered(order, apps) == SumAttemptCounts(order, apps)
  {
    if order != [] {
      var init := order[..|order| - 1];
      assert forall x :: x in init ==> x in order;
      SumNumberedAllNumbered(init, apps);
    }
  }

  lemma ParentBeforeChildAppend(xs: seq<Call>, ys: seq<Call>)
    requires ParentBeforeChild(xs) && ParentBeforeChild(ys)
    ensures ParentBeforeChild(xs + ys)
  {
    var zs := xs + ys;
    forall j | 0 <= j < |zs| && zs[j].StoreAttempt?
      ensures exists i :: 0 <= i < j && zs[i].StoreApplication? && zs[i].appId == zs[j].attemptId.app
    {
      if j < |xs| {
        assert zs[j] == xs[j];
        var i :| 0 <= i < j && xs[i].StoreApplication? && xs[i].appId == xs[j].attemptId.app;
        assert zs[i] == xs[i];
      } else {
        assert zs[j] == ys[j - |xs|];
        var i :| 0 <= i < j - |xs| && ys[i].StoreApplication? && ys[i].appId == ys[j - |xs|].attemptId.app;
        assert zs[i + |xs|] == ys[i];
      }
    }
  }

  /** An application is written before any of its attempts. */
  lemma {:induction false} AppsCallsParentBeforeChild(order: seq<ApplicationId>, apps: map<ApplicationId, ApplicationState>)
    requires forall id :: id in order ==> id in apps
    ensures ParentBeforeChild(AppsCalls(order, apps))
  {
    if order != [] {
      var init, id := order[..|order| - 1], order[|order| - 1];
      assert forall x :: x in init ==> x in order;
      AppsCallsParentBeforeChild(init, apps);
      var block := AppCalls(id, apps[id]);
      forall j | 0 <= j < |block| && block[j].StoreAttempt?
        ensures exists i :: 0 <= i < j && block[i].StoreApplication? && block[i].appId == block[j].attemptId.app
      {
        assert block[0] == StoreApplication(id, apps[id].record);
      }
      ParentBeforeChildAppend(AppsCalls(init, apps), block);
    }
  }

  /** Every call of the application phase is an application or an attempt write, and no attempt above the count is written. */
  lemma {:induction false} AppsCallsWithinCount(order: seq<ApplicationId>, apps: map<ApplicationId, ApplicationState>)
    requires forall id :: id in order ==> id in apps
    ensures forall j :: 0 <= j < |AppsCalls(order, apps)| ==>
      var c := AppsCalls(order, apps)[j];
      (c.StoreApplication? && c.appId in order) ||
      (c.StoreAttempt? && c.attemptId.app in order && c.attemptId.app in apps &&
       1 <= c.attemptId.attempt <= apps[c.attemptId.app].AttemptCount() &&
       c.attemptId in apps[c.attemptId.app].attempts &&
       c.attemptData == apps[c.attemptId.app].attempts[c.attemptId])
  {
    if order != [] {
      var init, id := order[..|order| - 1], order[|order| - 1];
      assert forall x :: x in init ==> x in order;
      AppsCallsWithinCount(init, apps);
    }
  }

  // ---------------------------------------------------------------------------
  // What the destination holds
  // ---------------------------------------------------------------------------

  /** The application records the writes of `order` leave in a store. */
  function AppRecords(order: seq<ApplicationId>, apps: map<ApplicationId, ApplicationState>): map<ApplicationId, AppRecord>
    requires forall id :: id in order ==> id in apps
  {
    if order == [] then map[]
    else
      var id := order[|order| - 1];
      AppRecords(order[..|order| - 1], apps)[id := apps[id].record]
  }

  /** The attempt records the writes of attempts 1 to n of application `id` leave in a store. */
  function AttemptRecords(id: ApplicationId, a: ApplicationState, n: nat): map<AttemptId, AttemptRecord>
    requires forall j :: 1 <= j <= n ==> AttemptId(id, j) in a.attempts
  {
    if n == 0 then map[]
    else AttemptRecords(id, a, n - 1)[AttemptId(id, n) := a.attempts[AttemptId(id, n)]]
  }

  /** The attempt records the writes of the applications of `order` leave in a store. */
  function CopiedAttempts(order: seq<ApplicationId>, apps: map<ApplicationId, ApplicationState>): map<AttemptId, AttemptRecord>
    requires forall id :: id in order ==> id in apps
  {
    if order == [] then map[]
    else
      var id := order[|order| - 1];
      CopiedAttempts(order[..|order| - 1], apps) + AttemptRecords(id, apps[id], Numbered(id, apps[id]))
  }

  /** The entries the token writes of `order` leave in a store. */
  function TokenEntries(order: seq<RMDelegationTokenIdentifier>, tokens: map<RMDelegationTokenIdentifier, int>): map<RMDelegationTokenIdentifier, TokenEntry>
    requires forall t :: t in order ==> t in tokens
  {
    if order == [] then map[]
    else
      var t := order[|order| - 1];
      TokenEntries(order[..|order| - 1], tokens)[t := TokenEntry(tokens[t], t.sequenceNumber)]
  }

  /** The sequence number a store keeps after the token writes of `order`, having kept `before`. */
  function LatestSequenceNumber(order: seq<RMDelegationTokenIdentifier>, before: int): int
  {
    if order == [] then before else order[|order| - 1].sequenceNumber
  }

  /** The master keys the key writes of `order` add to a store. */
  function KeySet(order: seq<DelegationKey>): set<DelegationKey>
  {
    if order == [] then {} else KeySet(order[..|order| - 1]) + {order[|order| - 1]}
  }

  /** Each application of `order` is stored with its own record. */
  lemma {:induction false} AppRecordsMeaning(order: seq<ApplicationId>, apps: map<ApplicationId, ApplicationState>)
    requires forall id :: id in order ==> id in apps
    ensures forall id :: id in AppRecords(order, apps) <==> id in order
    ensures forall id :: id in order ==> AppRecords(order, apps)[id] == apps[id].record
  {
    if order != [] {
      var init := order[..|order| - 1];
      assert forall x :: x in order <==> x in init || x == order[|order| - 1] by {
        assert order == init + [order[|order| - 1]];
      }
      AppRecordsMeaning(init, apps);
    }
  }

  /** Attempts 1 to n of application `id` are stored, each with its own record, and nothing else. */
  lemma {:induction false} AttemptRecordsMeaning(id: ApplicationId, a: ApplicationState, n: nat)
    requires forall j :: 1 <= j <= n ==> AttemptId(id, j) in a.attempts
    ensures forall aid: AttemptId :: aid in AttemptRecords(id, a, n) ==> aid.app == id && 1 <= aid.attempt <= n
    ensures forall j :: 1 <= j <= n ==>
      AttemptId(id, j) in AttemptRecords(id, a, n) &&
      AttemptRecords(id, a, n)[AttemptId(id, j)] == a.attempts[AttemptId(id, j)]
  {
    if n > 0 {
      AttemptRecordsMeaning(id, a, n - 1);
    }
  }

  /** Exactly the copied attempts are stored, each with its own record. */
  lemma {:induction false} CopiedAttemptsMeaning(order: seq<ApplicationId>, apps: map<ApplicationId, ApplicationState>)
    requires forall id :: id in order ==> id in apps
    ensures forall aid: AttemptId :: aid in CopiedAttempts(order, apps) <==> Copied(aid, order, apps)
    ensures forall aid: AttemptId :: aid in CopiedAttempts(order, apps) ==>
      aid.app in apps && aid in apps[aid.app].attempts &&
      CopiedAttempts(order, apps)[aid] == apps[aid.app].attempts[aid]
  {
    if order != [] {
      var init, id := order[..|order| - 1], order[|order| - 1];
      assert forall x :: x in order <==> x in init || x == id by {
        assert order == init + [id];
      }
      CopiedAttemptsMeaning(init, apps);
      var a := apps[id];
      AttemptRecordsMeaning(id, a, Numbered(id, a));
      var m := AttemptRecords(id, a, Numbered(id, a));
      forall aid: AttemptId | aid.app == id && 1 <= aid.attempt <= Numbered(id, a)
        ensures aid in m && aid in a.attempts && m[aid] == a.attempts[aid]
      {
        assert aid == AttemptId(id, aid.attempt);
      }
    }
  }

  /** One attempt of the copied attempts, on its own. */
  lemma CopiedAttemptAt(order: seq<ApplicationId>, apps: map<ApplicationId, ApplicationState>, aid: AttemptId)
    requires forall id :: id in order ==> id in apps
    ensures aid in CopiedAttempts(order, apps) <==> Copied(aid, order, apps)
    ensures aid in CopiedAttempts(order, apps) ==>
      aid.app in apps && aid in apps[aid.app].attempts &&
      CopiedAttempts(order, apps)[aid] == apps[aid.app].attempts[aid]
  {
    CopiedAttemptsMeaning(order, apps);
  }

  /** Each token of `order` is stored with its renew date and its own sequence number. */
  lemma {:induction false} TokenEntriesMeaning(order: seq<RMDelegationTokenIdentifier>, tokens: map<RMDelegationTokenIdentifier, int>)
    requires forall t :: t in order ==> t in tokens
    ensures forall t :: t in TokenEntries(order, tokens) <==> t in order
    ensures forall t :: t in order ==> TokenEntries(order, tokens)[t] == TokenEntry(tokens[t], t.sequenceNumber)
  {
    if order != [] {
      var init := order[..|order| - 1];
      assert forall x :: x in order <==> x in init || x == order[|order| - 1] by {
        assert order == init + [order[|order| - 1]];
      }
      TokenEntriesMeaning(init, tokens);
    }
  }

  /** The key writes of `order` add exactly the keys of `order`. */
  lemma {:induction false} KeySetMeaning(order: seq<DelegationKey>)
    ensures forall k :: k in KeySet(order) <==> k in order
  {
    if order != [] {
      var init := order[..|order| - 1];
      assert forall x :: x in order <==> x in init || x == order[|order| - 1] by {
        assert order == init + [order[|order| - 1]];
      }
      KeySetMeaning(init);
    }
  }

  lemma UpdateAfterUnion<K, V>(m: map<K, V>, n: map<K, V>, k: K, v: V)
    ensures (m + n)[k := v] == m + n[k := v]
  {
  }

  lemma AppendEmpty<T>(s: seq<T>)
    ensures s + [] == s
  {
  }

  /** The empty map is a unit of map union, on either side. */
  lemma UnionEmpty<K, V>(m: map<K, V>)
    ensures m + map[] == m
    ensures map[] + m == m
  {
  }

  lemma UnionAssociative<K, V>(m: map<K, V>, n: map<K, V>, p: map<K, V>)
    ensures (m + n) + p == m + (n + p)
  {
  }
}
