/**
 * The tab-wide vault-data cache behind the `useVaultsData` hook
 * (src/hooks/useVaultsData.ts).
 *
 * The source keeps four module-level variables (the cached `base` object, the
 * time of the last successful fetch, the shared in-flight promise and a
 * subscriber count) and drives them from five kinds of event on one event
 * loop: a component mounting (the effect body), a component unmounting (the
 * effect cleanup), a `fetchData` call, the settling of the request it issued,
 * and a tick of a 60-second polling interval. Each hook instance also keeps
 * its own React state and remembers, in its effect's `intervalId`, whether it
 * created a polling interval.
 *
 * `Shared` is that whole state as a value, with one pure step function per
 * event; `CacheStore` is the same state as mutable fields, whose methods are
 * proved to perform exactly those steps. The properties of the cache are
 * proved about the step functions and about runs of events.
 */
module VaultsCache {
  import opened Wrappers
  import opened VaultData

  /** Cached data is served without a request while it is younger than this: 2 hours in milliseconds. */
  const CACHE_DURATION: int := 2 * 60 * 60 * 1000

  /** Each mounted `useVaultsData` instance is named by the order in which it mounted. */
  type HookId = nat

  /** How the single request of a fetch ended. */
  datatype Response =
    | Received(base: VaultsMap)  // the response carried a `base` object (any object is truthy)
    | MissingBase                // the response had no `base`
    | TransportFailure           // the request itself failed

  /** The error a hook instance records when the fetch it started fails. */
  datatype FetchError = NoDataReceived | RequestFailed

  /**
   * The React state of one hook instance (`vaultsData`, `loading`, `error`),
   * plus `ownsInterval`: whether its effect created a polling interval, i.e.
   * whether its `intervalId` is non-null.
   */
  datatype Hook = Hook(vaultsData: Option<VaultsMap>, loading: bool, error: Option<FetchError>, ownsInterval: bool)

  /** What a mount did about data. */
  datatype MountAction = ServedFromCache | StartedFetch | JoinedFetch

  /**
   * The whole state:
   *   cached, lastFetchTime, activeSubscribers: the module variables of the same names;
   *   inFlight:  `fetchPromise` is non-null;
   *   initiator: the hook whose `fetchData` created the pending promise (its state receives the outcome);
   *   intervals: the hooks whose polling interval is still live (cleared ones are removed);
   *   hooks:     the state of every mounted hook instance;
   *   joiners:   mounted hooks waiting in `fetchPromise.then` for the pending fetch;
   *   nextId:    the id the next mount gets;
   *   requests, settled: how many network requests were issued and how many have settled.
   */
  datatype Shared = Shared(
    cached: Option<VaultsMap>,
    lastFetchTime: int,
    inFlight: bool,
    initiator: HookId,
    activeSubscribers: int,
    intervals: set<HookId>,
    hooks: map<HookId, Hook>,
    joiners: set<HookId>,
    nextId: HookId,
    requests: nat,
    settled: nat)

  /** The state at page load: nothing cached, time 0, no fetch, no subscriber. */
  function Initial(): (s: Shared)
    ensures Inv(s)
    ensures s.cached.None? && !s.inFlight && s.activeSubscribers == 0 && s.intervals == {}
  {
    Shared(None, 0, false, 0, 0, {}, map[], {}, 0, 0, 0)
  }

  /**
   * The invariant every reachable state keeps: the subscriber count is the
   * number of mounted hooks; a mounted hook owns a live interval exactly when
   * its `intervalId` is set; joiners exist only during a fetch; and exactly one
   * request is outstanding while a fetch is in flight, none otherwise.
   */
  ghost predicate Inv(s: Shared) {
    && s.activeSubscribers == |s.hooks.Keys|
    && (forall id :: id in s.hooks ==> id < s.nextId)
    && (forall id :: id in s.intervals ==> id < s.nextId)
    && (forall id :: id in s.hooks ==> (s.hooks[id].ownsInterval <==> id in s.intervals))
    && s.joiners <= s.hooks.Keys
    && (!s.inFlight ==> s.joiners == {})
    && (s.inFlight ==> s.initiator < s.nextId && s.initiator !in s.joiners)
    && s.requests == s.settled + (if s.inFlight then 1 else 0)
    && (s.cached.None? ==> s.lastFetchTime == 0)
  }

  /** The mount's freshness test: data cached and younger than the window. */
  predicate Fresh(s: Shared, now: int) {
    s.cached.Some? && now - s.lastFetchTime < CACHE_DURATION
  }

  /** The interval callback's test: the window has elapsed and no fetch is pending. */
  predicate TickDue(s: Shared, now: int) {
    now - s.lastFetchTime >= CACHE_DURATION && !s.inFlight
  }

  /**
   * `fetchData` of hook `id`: while a promise is pending it returns that
   * promise and changes nothing; otherwise it marks its own hook loading with
   * no error and issues exactly one request.
   */
  function FetchStep(s: Shared, id: HookId): (r: Shared)
    ensures s.inFlight ==> r == s
    ensures !s.inFlight ==> r.inFlight && r.initiator == id && r.requests == s.requests + 1
    ensures r.settled == s.settled && r.cached == s.cached && r.lastFetchTime == s.lastFetchTime
    ensures r.activeSubscribers == s.activeSubscribers && r.intervals == s.intervals
    ensures r.joiners == s.joiners && r.nextId == s.nextId
    ensures r.hooks.Keys == s.hooks.Keys
    ensures forall k :: k in s.hooks && k != id ==> r.hooks[k] == s.hooks[k]
    ensures !s.inFlight && id in s.hooks ==> r.hooks[id] == s.hooks[id].(loading := true, error := None)
  {
    if s.inFlight then s
    else
      s.(inFlight := true, initiator := id, requests := s.requests + 1,
         hooks := if id in s.hooks then s.hooks[id := s.hooks[id].(loading := true, error := None)] else s.hooks)
  }

  /** A new mount's id, what it did, and the state after its render and effect. */
  datatype Mounted = Mounted(state: Shared, id: HookId, action: MountAction)

  /**
   * The render and the first line of the effect: a new hook whose state
   * starts from the cache (loading iff nothing is cached), and one more
   * subscriber.
   */
  function Subscribe(s: Shared): Shared {
    s.(hooks := s.hooks[s.nextId := Hook(s.cached, s.cached.None?, None, false)],
       nextId := s.nextId + 1,
       activeSubscribers := s.activeSubscribers + 1)
  }

  /** The effect's data decision for hook `id`: use fresh data, else start a fetch, else join the pending one. */
  function Engage(s: Shared, id: HookId, now: int): Shared
    requires id in s.hooks
  {
    if Fresh(s, now) then s.(hooks := s.hooks[id := s.hooks[id].(vaultsData := s.cached, loading := false)])
    else if !s.inFlight then FetchStep(s, id)
    else s.(joiners := s.joiners + {id})
  }

  function ActionOf(s: Shared, now: int): MountAction {
    if Fresh(s, now) then ServedFromCache
    else if !s.inFlight then StartedFetch
    else JoinedFetch
  }

  /** The effect's last part: hook `id` creates the polling interval iff the count is now 1. */
  function StartPolling(s: Shared, id: HookId): Shared
    requires id in s.hooks
  {
    if s.activeSubscribers == 1
    then s.(intervals := s.intervals + {id}, hooks := s.hooks[id := s.hooks[id].(ownsInterval := true)])
    else s
  }

  /**
   * A component using the hook mounts at time `now`: its state starts from the
   * cache, the count goes up, and then it serves fresh data, starts a fetch,
   * or joins the pending one. Only the mount that brings the count to 1
   * creates a polling interval.
   */
  function MountStep(s: Shared, now: int): (r: Mounted)
    ensures r.id == s.nextId && r.state.nextId == s.nextId + 1
    ensures r.state.activeSubscribers == s.activeSubscribers + 1
    ensures r.id in r.state.hooks && r.state.hooks.Keys == s.hooks.Keys + {r.id}
    ensures r.action == ServedFromCache <==> Fresh(s, now)
    ensures r.action == StartedFetch <==> !Fresh(s, now) && !s.inFlight
    ensures r.action == ServedFromCache ==> r.state.hooks[r.id].vaultsData == s.cached && !r.state.hooks[r.id].loading
    ensures r.action == StartedFetch ==> r.state.inFlight && r.state.initiator == r.id && r.state.requests == s.requests + 1
    ensures r.action != StartedFetch ==> r.state.inFlight == s.inFlight && r.state.requests == s.requests
    ensures r.state.joiners == if r.action == JoinedFetch then s.joiners + {r.id} else s.joiners
    ensures r.state.intervals == if s.activeSubscribers == 0 then s.intervals + {r.id} else s.intervals
    ensures r.state.hooks[r.id].ownsInterval <==> s.activeSubscribers == 0
    ensures forall k :: k in s.hooks && k != r.id ==> r.state.hooks[k].ownsInterval == s.hooks[k].ownsInterval
    ensures r.state.hooks[r.id].vaultsData == s.cached && r.state.hooks[r.id].error.None?
    ensures r.action == StartedFetch ==> r.state.hooks[r.id].loading
    ensures r.action != StartedFetch ==> r.state.initiator == s.initiator
    ensures r.action == JoinedFetch ==> r.state.hooks[r.id].vaultsData == s.cached && r.state.hooks[r.id].loading == s.cached.None?
    ensures forall k :: k in s.hooks && k != r.id ==> r.state.hooks[k] == s.hooks[k]
    ensures r.state.cached == s.cached && r.state.lastFetchTime == s.lastFetchTime && r.state.settled == s.settled
  {
    var id := s.nextId;
    Mounted(StartPolling(Engage(Subscribe(s), id, now), id), id, ActionOf(s, now))
  }

  /**
   * Hook `id` unmounts: the count goes down, and its interval is cleared only
   * if this hook created one and the count is now 0. A pending fetch is not
   * cancelled.
   */
  function UnmountStep(s: Shared, id: HookId): (r: Shared)
    requires id in s.hooks
    ensures r.activeSubscribers == s.activeSubscribers - 1
    ensures r.intervals == if s.hooks[id].ownsInterval && r.activeSubscribers == 0 then s.intervals - {id} else s.intervals
    ensures r.hooks.Keys == s.hooks.Keys - {id}
    ensures forall k :: k in r.hooks ==> r.hooks[k] == s.hooks[k]
    ensures r.inFlight == s.inFlight && r.requests == s.requests && r.settled == s.settled
    ensures r.cached == s.cached && r.lastFetchTime == s.lastFetchTime
    ensures r.joiners == s.joiners - {id} && r.initiator == s.initiator && r.nextId == s.nextId
  {
    var count := s.activeSubscribers - 1;
    s.(activeSubscribers := count,
       intervals := if s.hooks[id].ownsInterval && count == 0 then s.intervals - {id} else s.intervals,
       hooks := s.hooks - {id},
       joiners := s.joiners - {id})
  }

  /** The error the initiating hook records for a response. */
  function ErrorOf(response: Response): Option<FetchError> {
    match response
    case Received(_) => None
    case MissingBase => Some(NoDataReceived)
    case TransportFailure => Some(RequestFailed)
  }

  /** The initiating hook's state after the request settles. */
  function SettledHook(h: Hook, response: Response): (r: Hook)
    ensures r.error == ErrorOf(response) && !r.loading && r.ownsInterval == h.ownsInterval
    ensures r.vaultsData == if response.Received? then Some(response.base) else h.vaultsData
  {
    match response
    case Received(base) => h.(vaultsData := Some(base), error := None, loading := false)
    case MissingBase => h.(error := Some(NoDataReceived), loading := false)
    case TransportFailure => h.(error := Some(RequestFailed), loading := false)
  }

  /**
   * The pending request settles at time `now`. A response with `base`
   * replaces the cache wholesale and stamps the time; any failure leaves both
   * untouched and is recorded only in the initiating hook. Either way the
   * promise is cleared, and then every joiner takes whatever is cached now.
   */
  function SettleStep(s: Shared, response: Response, now: int): (r: Shared)
    requires s.inFlight
    ensures !r.inFlight && r.joiners == {} && r.settled == s.settled + 1 && r.requests == s.requests
    ensures response.Received? ==> r.cached == Some(response.base) && r.lastFetchTime == now
    ensures !response.Received? ==> r.cached == s.cached && r.lastFetchTime == s.lastFetchTime
    ensures r.activeSubscribers == s.activeSubscribers && r.intervals == s.intervals && r.nextId == s.nextId
    ensures r.hooks.Keys == s.hooks.Keys
    ensures forall k :: k in s.hooks ==> r.hooks[k].ownsInterval == s.hooks[k].ownsInterval
    ensures forall k :: k in s.joiners && k in s.hooks ==> r.hooks[k].vaultsData == r.cached && !r.hooks[k].loading
    ensures forall k :: k in s.hooks && k != s.initiator ==> r.hooks[k].error == s.hooks[k].error
    ensures forall k :: k in s.hooks && k != s.initiator && k !in s.joiners ==> r.hooks[k] == s.hooks[k]
    ensures s.initiator in s.hooks ==> r.hooks[s.initiator].error == ErrorOf(response) && !r.hooks[s.initiator].loading
    ensures s.initiator in s.hooks && s.initiator !in s.joiners ==> r.hooks[s.initiator] == SettledHook(s.hooks[s.initiator], response)
  {
    Release(Record(s, response, now))
  }

  /** The request's own continuation: update the cache on success, and the initiating hook's state in every case. */
  function Record(s: Shared, response: Response, now: int): Shared {
    var owner := s.initiator;
    s.(cached := if response.Received? then Some(response.base) else s.cached,
       lastFetchTime := if response.Received? then now else s.lastFetchTime,
       hooks := if owner in s.hooks then s.hooks[owner := SettledHook(s.hooks[owner], response)] else s.hooks)
  }

  /** The `finally` clause clears the promise; then each joiner's callback copies the cache and stops loading. */
  function Release(s: Shared): Shared {
    s.(inFlight := false, settled := s.settled + 1, joiners := {},
       hooks := map k | k in s.hooks ::
         if k in s.joiners then s.hooks[k].(vaultsData := s.cached, loading := false) else s.hooks[k])
  }

  /**
   * A tick of the interval created by `owner`: it calls the owner's
   * `fetchData` iff the window has elapsed and nothing is pending, whether or
   * not anything is cached. When something is cached, it fetches exactly when
   * a mount at the same time would.
   */
  function TickStep(s: Shared, owner: HookId, now: int): (r: Shared)
    requires owner in s.intervals
    ensures r.requests == s.requests + (if TickDue(s, now) then 1 else 0)
    ensures TickDue(s, now) ==> r.inFlight && r.initiator == owner && r == FetchStep(s, owner)
    ensures !TickDue(s, now) ==> r == s
    ensures s.cached.Some? ==> (TickDue(s, now) <==> !Fresh(s, now) && !s.inFlight)
  {
    if TickDue(s, now) then FetchStep(s, owner) else s
  }

  /** The events that drive the cache. */
  datatype Event =
    | MountAt(now: int)
    | UnmountOf(id: HookId)
    | SettleWith(response: Response, now: int)
    | TickOf(owner: HookId, now: int)
    | RefetchBy(id: HookId)

  /** Whether an event can happen: only mounted hooks unmount, only a pending request settles, only live intervals tick, only created hooks refetch. */
  predicate Enabled(s: Shared, e: Event) {
    match e
    case MountAt(_) => true
    case UnmountOf(id) => id in s.hooks
    case SettleWith(_, _) => s.inFlight
    case TickOf(owner, _) => owner in s.intervals
    case RefetchBy(id) => id < s.nextId
  }

  function Step(s: Shared, e: Event): Shared
    requires Enabled(s, e)
  {
    match e
    case MountAt(now) => MountStep(s, now).state
    case UnmountOf(id) => UnmountStep(s, id)
    case SettleWith(response, now) => SettleStep(s, response, now)
    case TickOf(owner, now) => TickStep(s, owner, now)
    case RefetchBy(id) => FetchStep(s, id)
  }

  /** The state after a sequence of events, or None if one of them cannot happen. */
  function Run(s: Shared, events: seq<Event>): Option<Shared>
    decreases |events|
  {
    if events == [] then Some(s)
    else if !Enabled(s, events[0]) then None
    else Run(Step(s, events[0]), events[1..])
  }

  lemma FetchKeepsInv(s: Shared, id: HookId)
    requires Inv(s) && id < s.nextId
    ensures Inv(FetchStep(s, id))
  {
  }

  lemma SubscribeKeepsInv(s: Shared)
    requires Inv(s)
    ensures Inv(Subscribe(s))
  {
    var r := Subscribe(s);
    assert s.nextId !in s.hooks.Keys;
    assert r.hooks.Keys == s.hooks.Keys + {s.nextId};
  }

  lemma EngageKeepsInv(s: Shared, id: HookId, now: int)
    requires Inv(s) && id in s.hooks && (s.inFlight ==> s.initiator != id)
    ensures Inv(Engage(s, id, now))
  {
    if !Fresh(s, now) && !s.inFlight {
      FetchKeepsInv(s, id);
    }
  }

  lemma StartPollingKeepsInv(s: Shared, id: HookId)
    requires Inv(s) && id in s.hooks && id !in s.intervals
    ensures Inv(StartPolling(s, id))
  {
  }

  lemma MountKeepsInv(s: Shared, now: int)
    requires Inv(s)
    ensures Inv(MountStep(s, now).state)
  {
    var id := s.nextId;
    var s1 := Subscribe(s);
    SubscribeKeepsInv(s);
    EngageKeepsInv(s1, id, now);
    var s2 := Engage(s1, id, now);
    assert id !in s2.intervals;
    StartPollingKeepsInv(s2, id);
  }

  lemma UnmountKeepsInv(s: Shared, id: HookId)
    requires Inv(s) && id in s.hooks
    ensures Inv(UnmountStep(s, id))
  {
    var r := UnmountStep(s, id);
    assert |r.hooks.Keys| == |s.hooks.Keys| - 1;
  }

  lemma SettleKeepsInv(s: Shared, response: Response, now: int)
    requires Inv(s) && s.inFlight
    ensures Inv(SettleStep(s, response, now))
  {
  }

  /** Every event keeps the invariant. */
  lemma StepKeepsInv(s: Shared, e: Event)
    requires Inv(s) && Enabled(s, e)
    ensures Inv(Step(s, e))
  {
    match e
    case MountAt(now) => MountKeepsInv(s, now);
    case UnmountOf(id) => UnmountKeepsInv(s, id);
    case SettleWith(response, now) => SettleKeepsInv(s, response, now);
    case TickOf(owner, now) => if TickDue(s, now) { FetchKeepsInv(s, owner); }
    case RefetchBy(id) => FetchKeepsInv(s, id);
  }

  /** Every run of events keeps the invariant. */
  lemma {:induction false} RunKeepsInv(s: Shared, events: seq<Event>)
    requires Inv(s)
    ensures Run(s, events).Some? ==> Inv(Run(s, events).value)
    decreases |events|
  {
    if events != [] && Enabled(s, events[0]) {
      StepKeepsInv(s, events[0]);
      RunKeepsInv(Step(s, events[0]), events[1..]);
    }
  }

  /**
   * Deduplication over any history from page load: at every moment at most
   * one request is outstanding, however many hooks mounted, refetched or own
   * a live interval.
   */
  lemma AtMostOneRequestOutstanding(events: seq<Event>)
    requires Run(Initial(), events).Some?
    ensures var t := Run(Initial(), events).value;
      t.requests == t.settled + (if t.inFlight then 1 else 0) && t.requests <= t.settled + 1
  {
    RunKeepsInv(Initial(), events);
  }

  function Mounts(events: seq<Event>): nat {
    if events == [] then 0 else (if events[0].MountAt? then 1 else 0) + Mounts(events[1..])
  }

  function Unmounts(events: seq<Event>): nat {
    if events == [] then 0 else (if events[0].UnmountOf? then 1 else 0) + Unmounts(events[1..])
  }

  /** The subscriber count moves by mounts minus unmounts, and nothing else changes it. */
  lemma {:induction false} CountIsMountsMinusUnmounts(s: Shared, events: seq<Event>)
    requires Run(s, events).Some?
    ensures Run(s, events).value.activeSubscribers == s.activeSubscribers + Mounts(events) - Unmounts(events)
    decreases |events|
  {
    if events != [] {
      CountIsMountsMinusUnmounts(Step(s, events[0]), events[1..]);
    }
  }

  /** Only a settle with a response carrying `base` changes the cache, and then to that `base`. */
  lemma CacheOnlyBySuccess(s: Shared, e: Event)
    requires Enabled(s, e)
    ensures Step(s, e).cached != s.cached ==>
      e.SettleWith? && e.response.Received? && Step(s, e).cached == Some(e.response.base)
  {
  }

  /**
   * Over any run, a cache that differs from the starting one holds the `base`
   * of some successful settle in the run: mounts, unmounts, refetches, ticks
   * and failed requests never touch it.
   */
  lemma {:induction false} CacheReplacedOnlyBySuccess(s: Shared, events: seq<Event>)
    requires Run(s, events).Some? && Run(s, events).value.cached != s.cached
    ensures exists i :: 0 <= i < |events| && events[i].SettleWith? && events[i].response.Received? &&
                        Run(s, events).value.cached == Some(events[i].response.base)
    decreases |events|
  {
    var next := Step(s, events[0]);
    var rest := events[1..];
    assert Run(s, events) == Run(next, rest);
    if Run(next, rest).value.cached != next.cached {
      CacheReplacedOnlyBySuccess(next, rest);
      var j :| 0 <= j < |rest| && rest[j].SettleWith? && rest[j].response.Received? &&
               Run(next, rest).value.cached == Some(rest[j].response.base);
      assert events[j + 1] == rest[j];
    } else {
      CacheOnlyBySuccess(s, events[0]);
    }
  }

  /** The polling intervals only grow at a mount that brings the count from 0 to 1, and then by exactly that mount's interval. */
  lemma IntervalsGrowOnlyOnFirstMount(s: Shared, e: Event)
    requires Enabled(s, e)
    ensures Step(s, e).intervals != s.intervals && s.intervals <= Step(s, e).intervals ==>
      e.MountAt? && s.activeSubscribers == 0 && Step(s, e).intervals == s.intervals + {s.nextId}
    ensures !e.MountAt? ==> Step(s, e).intervals <= s.intervals
  {
  }

  /** Four events, each enabled where the previous one left the store, end where the last one leads. */
  lemma RunFour(s: Shared, e0: Event, e1: Event, e2: Event, e3: Event, s1: Shared, s2: Shared, s3: Shared)
    requires Enabled(s, e0) && Step(s, e0) == s1
    requires Enabled(s1, e1) && Step(s1, e1) == s2
    requires Enabled(s2, e2) && Step(s2, e2) == s3
    requires Enabled(s3, e3)
    ensures Run(s, [e0, e1, e2, e3]) == Some(Step(s3, e3))
  {
    assert [e3][1..] == [];
    assert Run(s3, [e3]) == Some(Step(s3, e3));
    assert [e2, e3][1..] == [e3];
    assert Run(s2, [e2, e3]) == Run(s3, [e3]);
    assert [e1, e2, e3][1..] == [e2, e3];
    assert Run(s1, [e1, e2, e3]) == Run(s2, [e2, e3]);
    assert [e0, e1, e2, e3][1..] == [e1, e2, e3];
  }

  /** The first of two mounts onto no subscribers creates the interval; the second does not. */
  lemma TwoMounts(s: Shared, t1: int, t2: int)
    requires s.activeSubscribers == 0
    ensures var a := s.nextId; var s2 := MountStep(MountStep(s, t1).state, t2).state;
      && s2.intervals == s.intervals + {a} && s2.activeSubscribers == 2 && s2.nextId == a + 2
      && a in s2.hooks && s2.hooks[a].ownsInterval
      && a + 1 in s2.hooks && !s2.hooks[a + 1].ownsInterval
  {
    var s1 := MountStep(s, t1).state;
    assert s1.nextId == s.nextId + 1 && s.nextId in s1.hooks && s1.hooks[s.nextId].ownsInterval;
  }

  /**
   * Two components mount and unmount in reverse order: the first one created
   * the interval and is the last to leave, so its unmount clears it.
   */
  lemma LastOutClearsInterval(s: Shared, t1: int, t2: int)
    requires s.activeSubscribers == 0 && s.nextId !in s.intervals
    ensures var a := s.nextId;
      var t := Run(s, [MountAt(t1), MountAt(t2), UnmountOf(a + 1), UnmountOf(a)]);
      t.Some? && t.value.intervals == s.intervals && t.value.activeSubscribers == 0
  {
    var a := s.nextId;
    var s1 := MountStep(s, t1).state;
    var s2 := MountStep(s1, t2).state;
    TwoMounts(s, t1, t2);
    var s3 := UnmountStep(s2, a + 1);
    assert a in s3.hooks && s3.hooks[a].ownsInterval && s3.activeSubscribers == 1;
    var s4 := UnmountStep(s3, a);
    assert s4.intervals == s.intervals && s4.activeSubscribers == 0;
    RunFour(s, MountAt(t1), MountAt(t2), UnmountOf(a + 1), UnmountOf(a), s1, s2, s3);
  }

  /**
   * Two components mount and the first one unmounts first: its interval is
   * not cleared (the count was 1) and the second, which created none, clears
   * nothing. The interval stays live with no subscriber left.
   */
  lemma FirstOutLeavesIntervalRunning(s: Shared, t1: int, t2: int)
    requires s.activeSubscribers == 0
    ensures var a := s.nextId;
      var t := Run(s, [MountAt(t1), MountAt(t2), UnmountOf(a), UnmountOf(a + 1)]);
      t.Some? && t.value.intervals == s.intervals + {a} && t.value.activeSubscribers == 0
  {
    var a := s.nextId;
    var s1 := MountStep(s, t1).state;
    var s2 := MountStep(s1, t2).state;
    TwoMounts(s, t1, t2);
    var s3 := UnmountStep(s2, a);
    assert a + 1 in s3.hooks && !s3.hooks[a + 1].ownsInterval && s3.intervals == s2.intervals;
    var s4 := UnmountStep(s3, a + 1);
    RunFour(s, MountAt(t1), MountAt(t2), UnmountOf(a), UnmountOf(a + 1), s1, s2, s3);
  }

  /**
   * After such a leak, the next first mount creates a second live interval:
   * both then tick, yet by AtMostOneRequestOutstanding never two requests
   * are pending.
   */
  lemma MountAfterLeakAddsInterval(s: Shared, now: int)
    requires s.activeSubscribers == 0 && s.intervals != {}
    requires forall id :: id in s.intervals ==> id < s.nextId
    ensures var r := MountStep(s, now).state; s.intervals < r.intervals && |r.intervals| >= 2
  {
    var r := MountStep(s, now).state;
    var leaked :| leaked in s.intervals;
    assert {leaked, s.nextId} <= r.intervals;
    assert |{leaked, s.nextId}| == 2;
    SubsetCard({leaked, s.nextId}, r.intervals);
  }

  lemma SubsetCard(a: set<HookId>, b: set<HookId>)
    requires a <= b
    ensures |a| <= |b|
  {
    assert b == a + (b - a);
  }

  /**
   * The hook state and the module variables as mutable fields. Each method
   * performs one event and is proved to produce exactly the state its step
   * function describes; `Valid` is the invariant above.
   */
  class CacheStore {
    var cachedData: Option<VaultsMap>
    var lastFetchTime: int
    var fetchInFlight: bool
    var initiator: HookId
    var activeSubscribers: int
    var intervals: set<HookId>
    var hooks: map<HookId, Hook>
    var joiners: set<HookId>
    var nextId: HookId
    ghost var requests: nat
    ghost var settled: nat

    ghost function State(): Shared
      reads this
    {
      Shared(cachedData, lastFetchTime, fetchInFlight, initiator, activeSubscribers,
             intervals, hooks, joiners, nextId, requests, settled)
    }

    ghost predicate Valid()
      reads this
    {
      Inv(State())
    }

    constructor ()
      ensures Valid() && State() == Initial()
    {
      cachedData := None;
      lastFetchTime := 0;
      fetchInFlight := false;
      initiator := 0;
      activeSubscribers := 0;
      intervals := {};
      hooks := map[];
      joiners := {};
      nextId := 0;
      requests := 0;
      settled := 0;
    }

    /** `fetchData` (and `refetch`) of hook `id`. */
    method FetchData(id: HookId) returns (started: bool)
      requires id < nextId
      modifies this
      ensures State() == FetchStep(old(State()), id)
      ensures started == !old(fetchInFlight)
      ensures old(Valid()) ==> Valid()
    {
      if fetchInFlight {
        return false;
      }
      if id in hooks {
        hooks := hooks[id := hooks[id].(loading := true, error := None)];
      }
      initiator := id;
      fetchInFlight := true;
      requests := requests + 1;
      started := true;
      if old(Valid()) {
        FetchKeepsInv(old(State()), id);
      }
    }

    /** A component using the hook renders and runs its effect at time `now`. */
    method Mount(now: int) returns (id: HookId, action: MountAction)
      requires Valid()
      modifies this
      ensures Valid()
      ensures var m := MountStep(old(State()), now); State() == m.state && id == m.id && action == m.action
    {
      // render: the useState initialisers; effect: the count goes up
      id := nextId;
      hooks := hooks[id := Hook(cachedData, cachedData.None?, None, false)];
      nextId := nextId + 1;
      activeSubscribers := activeSubscribers + 1;
      assert State() == Subscribe(old(State()));
      ghost var subscribed := State();
      if cachedData.Some? && now - lastFetchTime < CACHE_DURATION {
        hooks := hooks[id := hooks[id].(vaultsData := cachedData, loading := false)];
        action := ServedFromCache;
      } else if !fetchInFlight {
        var started := FetchData(id);
        action := StartedFetch;
      } else {
        joiners := joiners + {id};
        action := JoinedFetch;
      }
      assert State() == Engage(subscribed, id, now);
      ghost var engaged := State();
      if activeSubscribers == 1 {
        intervals := intervals + {id};
        hooks := hooks[id := hooks[id].(ownsInterval := true)];
      }
      assert State() == StartPolling(engaged, id);
      MountKeepsInv(old(State()), now);
    }

    /** Hook `id`'s effect cleanup. */
    method Unmount(id: HookId)
      requires Valid() && id in hooks
      modifies this
      ensures Valid() && State() == UnmountStep(old(State()), id)
    {
      ghost var after := UnmountStep(State(), id);
      activeSubscribers := activeSubscribers - 1;
      if hooks[id].ownsInterval && activeSubscribers == 0 {
        intervals := intervals - {id};
      }
      hooks := hooks - {id};
      joiners := joiners - {id};
      assert State() == after;
      UnmountKeepsInv(old(State()), id);
    }

    /** The pending request settles at time `now` with `response`. */
    method Settle(response: Response, now: int)
      requires Valid() && fetchInFlight
      modifies this
      ensures Valid() && State() == SettleStep(old(State()), response, now)
    {
      if response.Received? {
        cachedData := Some(response.base);
        lastFetchTime := now;
      }
      if initiator in hooks {
        hooks := hooks[initiator := SettledHook(hooks[initiator], response)];
      }
      assert State() == Record(old(State()), response, now);
      ghost var recorded := State();
      fetchInFlight := false;
      settled := settled + 1;
      hooks := map k | k in hooks ::
        if k in joiners then hooks[k].(vaultsData := cachedData, loading := false) else hooks[k];
      joiners := {};
      assert State() == Release(recorded);
      SettleKeepsInv(old(State()), response, now);
    }

    /** A tick, at time `now`, of the interval that hook `owner` created. */
    method Tick(owner: HookId, now: int)
      requires Valid() && owner in intervals
      modifies this
      ensures Valid() && State() == TickStep(old(State()), owner, now)
    {
      if now - lastFetchTime >= CACHE_DURATION && !fetchInFlight {
        var started := FetchData(owner);
      }
    }
  }
}
