/**
 * The debounce of the onionbalance refresher: a mutex-guarded timer and pending flag, informer handlers,
 * timer callbacks that list, write and re-arm, and the initial rebuild of Run. A rebuild is two steps, the
 * list and the write, and rebuilds may overlap. `S` is what the informer's store holds.
 */
module Refresher {
  import opened Wrappers

  const MIN_INTERVAL: nat := 5   // seconds
  const DEFAULT_INTERVAL: nat := 30

  // ---------------------------------------------------------------- the mutex-guarded fields

  /** `r.timer` is nil only in Idle; in Expired the callback has started but not yet taken the lock. */
  datatype Timer = Idle | Armed(due: nat) | Expired

  datatype Core = Core(timer: Timer, pending: bool)

  function Scheduled(c: Core, now: nat, interval: nat): Core {
    if c.timer != Idle then c.(pending := true) else c.(timer := Armed(now + interval))
  }

  class Debouncer {
    const interval: nat
    var timer: Timer
    var pending: bool
    var hasStore: bool

    constructor (requested: int)
      ensures interval >= 5 && (requested >= 5 ==> interval == requested)
      ensures requested <= 0 ==> interval == 30
      ensures 0 < requested < 5 ==> interval == 5
      ensures Fields() == Core(Idle, false) && !hasStore
    {
      var i := if requested <= 0 then DEFAULT_INTERVAL else requested;
      interval := if i < MIN_INTERVAL then MIN_INTERVAL else i;
      timer, pending, hasStore := Idle, false, false;
    }

    function Fields(): Core
      reads this
    {
      Core(timer, pending)
    }

    method Schedule(now: nat)
      modifies this
      ensures Fields() == Scheduled(old(Fields()), now, interval) && hasStore == old(hasStore)
    {
      if timer != Idle {
        pending := true;
        return;
      }
      timer := Armed(now + interval);
    }

    /** The locked part of fire: both fields are cleared before anything is listed. */
    method FireLocked() returns (wasPending: bool, store: bool)
      modifies this
      ensures Fields() == Core(Idle, false) && hasStore == old(hasStore)
      ensures wasPending == old(pending) && store == hasStore
    {
      timer := Idle;
      wasPending := pending;
      pending := false;
      store := hasStore;
    }
  }

  /** The fields after a burst of schedule calls at the given times, none of them interrupted by a callback. */
  function Burst(c: Core, times: seq<nat>, interval: nat): Core {
    if times == [] then c else Scheduled(Burst(c, times[..|times| - 1], interval), times[|times| - 1], interval)
  }

  /**
   * A burst on a resting refresher arms one timer, due one interval after the first change of the burst
   * whatever follows; and the callback will re-arm it exactly if the burst had a second change.
   */
  lemma {:induction false} BurstArmsOnce(times: seq<nat>, interval: nat)
    requires times != []
    ensures Burst(Core(Idle, false), times, interval) == Core(Armed(times[0] + interval), |times| > 1)
  {
    if |times| > 1 {
      BurstArmsOnce(times[..|times| - 1], interval);
    }
  }

  /** A timer already out is neither moved nor replaced by any burst. */
  lemma {:induction false} BurstKeepsTimer(c: Core, times: seq<nat>, interval: nat)
    requires c.timer != Idle
    ensures Burst(c, times, interval) == Core(c.timer, c.pending || times != [])
  {
    if times != [] {
      BurstKeepsTimer(c, times[..|times| - 1], interval);
    }
  }

  // ---------------------------------------------------------------- the whole refresher

  /** `at` is when the snapshot was listed. */
  datatype Stage<S> = Listing | Writing(snapshot: S, at: nat) | Rearming

  /** One timer callback past its critical section; `flagged` is the pending flag it took. */
  datatype Fire<S> = Fire(stage: Stage<S>, flagged: bool)

  /** Run: before the cache has synced, before and inside the initial rebuild, and after it. */
  datatype Startup<S> = Unsynced | Synced | FirstWriting(snapshot: S, at: nat) | Running

  datatype State<S> = State(
    cache: S,                  // the informer's store
    handlers: nat,             // event handlers called but not yet run
    core: Core,
    startup: Startup<S>,
    fires: seq<Fire<S>>,
    now: nat,
    // history
    listed: Option<S>,         // the latest snapshot any rebuild listed
    config: Option<S>,         // the snapshot the file on disk was rendered from
    lastWriteOk: bool,
    starts: seq<nat>)          // when each timer callback took the lock

  datatype Event<S> =
    | Change(cache: S)         // a Secret is added, updated or deleted
    | Handle
    | Wait(d: nat)
    | Expire
    | FireLock
    | FireList(i: nat)
    | FireWrite(i: nat, ok: bool)
    | FireEnd(i: nat)
    | SetStore
    | FirstList
    | FirstWrite(ok: bool)

  predicate Enabled<S>(s: State<S>, e: Event<S>, interval: nat) {
    match e
    case Change(_) => true
    case Handle => s.handlers > 0
    case Wait(_) => true
    case Expire => s.core.timer.Armed? && s.core.timer.due <= s.now
    case FireLock => s.core.timer == Expired
    case FireList(i) => i < |s.fires| && s.fires[i].stage.Listing?
    case FireWrite(i, _) => i < |s.fires| && s.fires[i].stage.Writing?
    case FireEnd(i) => i < |s.fires| && s.fires[i].stage.Rearming?
    case SetStore => s.startup.Unsynced?
    case FirstList => s.startup.Synced?
    case FirstWrite(_) => s.startup.FirstWriting?
  }

  function Drop<T>(s: seq<T>, i: nat): seq<T>
    requires i < |s|
  {
    s[..i] + s[i + 1..]
  }

  /** A write that fails leaves the file as it was. */
  function Written<S>(s: State<S>, snapshot: S, ok: bool): State<S> {
    s.(config := if ok then Some(snapshot) else s.config, lastWriteOk := ok)
  }

  function Step<S>(s: State<S>, e: Event<S>, interval: nat): State<S>
    requires Enabled(s, e, interval)
  {
    match e
    case Change(c) => s.(cache := c, handlers := s.handlers + 1)
    case Handle => s.(handlers := s.handlers - 1, core := Scheduled(s.core, s.now, interval))
    case Wait(d) => s.(now := s.now + d)
    case Expire => s.(core := s.core.(timer := Expired))
    case FireLock =>
      var stage := if s.startup.Unsynced? then Rearming else Listing;
      s.(core := Core(Idle, false), fires := s.fires + [Fire(stage, s.core.pending)], starts := s.starts + [s.now])
    case FireList(i) =>
      s.(fires := s.fires[i := s.fires[i].(stage := Writing(s.cache, s.now))], listed := Some(s.cache))
    case FireWrite(i, ok) =>
      Written(s, s.fires[i].stage.snapshot, ok).(fires := s.fires[i := s.fires[i].(stage := Rearming)])
    case FireEnd(i) =>
      s.(fires := Drop(s.fires, i), core := if s.fires[i].flagged then Scheduled(s.core, s.now, interval) else s.core)
    case SetStore => s.(startup := Synced)
    case FirstList => s.(startup := FirstWriting(s.cache, s.now), listed := Some(s.cache))
    case FirstWrite(ok) => Written(s, s.startup.snapshot, ok).(startup := Running)
  }

  function Start<S>(cache: S): State<S> {
    State(cache, 0, Core(Idle, false), Unsynced, [], 0, None, None, true, [])
  }

  ghost predicate Legal<S>(s: State<S>, es: seq<Event<S>>, interval: nat)
    decreases |es|
  {
    es == [] || (Enabled(s, es[0], interval) && Legal(Step(s, es[0], interval), es[1..], interval))
  }

  ghost function Exec<S>(s: State<S>, es: seq<Event<S>>, interval: nat): State<S>
    requires Legal(s, es, interval)
    decreases |es|
  {
    if es == [] then s else Exec(Step(s, es[0], interval), es[1..], interval)
  }

  // ---------------------------------------------------------------- no lost update

  /** Something still has to list: a handler call, a timer, a callback before its list, or Run before its own. */
  ghost predicate ListOwed<S>(s: State<S>) {
    || s.handlers > 0
    || s.core.timer != Idle
    || (exists i | 0 <= i < |s.fires| :: s.fires[i].stage.Listing?)
    || s.startup.Unsynced? || s.startup.Synced?
  }

  ghost predicate NothingLost<S>(s: State<S>) {
    s.listed != Some(s.cache) ==> ListOwed(s)
  }

  lemma StepLosesNothing<S>(s: State<S>, e: Event<S>, interval: nat)
    requires NothingLost(s) && Enabled(s, e, interval)
    ensures NothingLost(Step(s, e, interval))
  {
    var t := Step(s, e, interval);
    if e.FireLock? && !s.startup.Unsynced? {
      assert t.fires[|s.fires|].stage.Listing?;
    } else if e.FireLock? {
    } else if i :| 0 <= i < |s.fires| && s.fires[i].stage.Listing? && t.listed != Some(t.cache) {
      if e.FireEnd? {
        assert t.fires[if i < e.i then i else i - 1] == s.fires[i];
      } else {
        assert t.fires[i] == s.fires[i];
      }
    }
  }

  /** Whenever the store differs from the last snapshot listed, a list is still owed, in every reachable state. */
  lemma {:induction false} NoChangeIsLost<S>(s: State<S>, es: seq<Event<S>>, interval: nat)
    requires NothingLost(s) && Legal(s, es, interval)
    ensures NothingLost(Exec(s, es, interval))
    decreases |es|
  {
    if es != [] {
      StepLosesNothing(s, es[0], interval);
      NoChangeIsLost(Step(s, es[0], interval), es[1..], interval);
    }
  }

  // ---------------------------------------------------------------- serial rebuilds

  predicate NoRebuildBetweenListAndWrite<S>(s: State<S>) {
    !s.startup.FirstWriting? && forall i | 0 <= i < |s.fires| :: !s.fires[i].stage.Writing?
  }

  /** Every list of the run finds no other rebuild between its list and its write. */
  ghost predicate Serial<S>(s: State<S>, es: seq<Event<S>>, interval: nat)
    requires Legal(s, es, interval)
    decreases |es|
  {
    es == [] ||
    ((es[0].FireList? || es[0].FirstList? ==> NoRebuildBetweenListAndWrite(s)) &&
     Serial(Step(s, es[0], interval), es[1..], interval))
  }

  /** Whoever is about to write holds the latest snapshot, alone; once nobody is, the file shows it. */
  ghost predicate FileFollows<S>(s: State<S>) {
    && (s.startup.FirstWriting? ==>
          s.listed == Some(s.startup.snapshot) && forall i | 0 <= i < |s.fires| :: !s.fires[i].stage.Writing?)
    && (forall i | 0 <= i < |s.fires| && s.fires[i].stage.Writing? :: s.listed == Some(s.fires[i].stage.snapshot))
    && (forall i, j | 0 <= i < j < |s.fires| :: !(s.fires[i].stage.Writing? && s.fires[j].stage.Writing?))
    && (NoRebuildBetweenListAndWrite(s) && s.lastWriteOk ==> s.config == s.listed)
  }

  lemma StepFileFollows<S>(s: State<S>, e: Event<S>, interval: nat)
    requires FileFollows(s) && Enabled(s, e, interval)
    requires e.FireList? || e.FirstList? ==> NoRebuildBetweenListAndWrite(s)
    ensures FileFollows(Step(s, e, interval))
  {
    match e
    case FireLock => LockFollows(s, interval);
    case FireList(i) => ListFollows(s, i, interval);
    case FireWrite(i, ok) => WriteFollows(s, i, ok, interval);
    case FireEnd(i) => EndFollows(s, i, interval);
    case _ =>
  }

  lemma LockFollows<S>(s: State<S>, interval: nat)
    requires FileFollows(s) && Enabled(s, FireLock, interval)
    ensures FileFollows(Step(s, FireLock, interval))
  {
    var t := Step(s, FireLock, interval);
    assert forall i | 0 <= i < |s.fires| :: t.fires[i] == s.fires[i];
  }

  lemma ListFollows<S>(s: State<S>, i: nat, interval: nat)
    requires FileFollows(s) && Enabled(s, FireList(i), interval) && NoRebuildBetweenListAndWrite(s)
    ensures FileFollows(Step(s, FireList(i), interval))
  {
    var t := Step(s, FireList(i), interval);
    assert t.fires[i].stage.Writing?;
  }

  lemma WriteFollows<S>(s: State<S>, i: nat, ok: bool, interval: nat)
    requires FileFollows(s) && Enabled(s, FireWrite(i, ok), interval)
    ensures FileFollows(Step(s, FireWrite(i, ok), interval))
  {
    assert s.fires[i].stage.Writing?;
  }

  lemma EndFollows<S>(s: State<S>, i: nat, interval: nat)
    requires FileFollows(s) && Enabled(s, FireEnd(i), interval)
    ensures FileFollows(Step(s, FireEnd(i), interval))
  {
    var t := Step(s, FireEnd(i), interval);
    assert t.fires == s.fires[..i] + s.fires[i + 1..];
    if NoRebuildBetweenListAndWrite(t) {
      forall k | 0 <= k < |s.fires|
        ensures !s.fires[k].stage.Writing?
      {
        if k < i {
          assert t.fires[k] == s.fires[k];
        } else if k > i {
          assert t.fires[k - 1] == s.fires[k];
        }
      }
    }
  }

  lemma {:induction false} SerialRunsFollow<S>(s: State<S>, es: seq<Event<S>>, interval: nat)
    requires FileFollows(s) && Legal(s, es, interval) && Serial(s, es, interval)
    ensures FileFollows(Exec(s, es, interval))
    decreases |es|
  {
    if es != [] {
      StepFileFollows(s, es[0], interval);
      SerialRunsFollow(Step(s, es[0], interval), es[1..], interval);
    }
  }

  /** Nothing left to do until the next change. */
  predicate Quiescent<S>(s: State<S>) {
    s.handlers == 0 && s.core.timer == Idle && s.fires == [] && s.startup.Running?
  }

  /** When a serial run has come to rest and its last write succeeded, the file shows the present store. */
  lemma RestingConfigIsCurrent<S>(cache: S, es: seq<Event<S>>, interval: nat)
    requires Legal(Start(cache), es, interval) && Serial(Start(cache), es, interval)
    requires var t := Exec(Start(cache), es, interval); Quiescent(t) && t.lastWriteOk
    ensures var t := Exec(Start(cache), es, interval); t.config == Some(t.cache)
  {
    NoChangeIsLost(Start(cache), es, interval);
    SerialRunsFollow(Start(cache), es, interval);
  }

  // ---------------------------------------------------------------- spacing of the callbacks

  /** Callbacks take the lock at least `interval` apart, and the armed timer keeps that distance. */
  ghost predicate Spaced<S>(s: State<S>, interval: nat) {
    && (forall k | 0 < k < |s.starts| :: s.starts[k - 1] + interval <= s.starts[k])
    && (s.starts != [] ==>
          var last := s.starts[|s.starts| - 1];
          && last <= s.now
          && (s.core.timer.Armed? ==> last + interval <= s.core.timer.due)
          && (s.core.timer == Expired ==> last + interval <= s.now))
    && (s.core.pending ==> s.core.timer != Idle)
  }

  lemma StepSpaced<S>(s: State<S>, e: Event<S>, interval: nat)
    requires Spaced(s, interval) && Enabled(s, e, interval)
    ensures Spaced(Step(s, e, interval), interval)
  {
  }

  lemma {:induction false} CallbacksAreSpaced<S>(s: State<S>, es: seq<Event<S>>, interval: nat)
    requires Spaced(s, interval) && Legal(s, es, interval)
    ensures Spaced(Exec(s, es, interval), interval)
    decreases |es|
  {
    if es != [] {
      StepSpaced(s, es[0], interval);
      CallbacksAreSpaced(Step(s, es[0], interval), es[1..], interval);
    }
  }

  // ---------------------------------------------------------------- brisk rebuilds, overlapping or not

  /** Every rebuild between its list and its write, the initial one included, is younger than `bound`. */
  predicate Brisk<S>(s: State<S>, bound: nat) {
    && (s.startup.FirstWriting? ==> s.now < s.startup.at + bound)
    && forall i | 0 <= i < |s.fires| && s.fires[i].stage.Writing? :: s.now < s.fires[i].stage.at + bound
  }

  ghost predicate BriskRun<S>(s: State<S>, es: seq<Event<S>>, interval: nat, bound: nat)
    requires Legal(s, es, interval)
    decreases |es|
  {
    Brisk(s, bound) && (es != [] ==> BriskRun(Step(s, es[0], interval), es[1..], interval, bound))
  }

  ghost predicate SomeFlagged<S>(fires: seq<Fire<S>>) {
    exists i :: 0 <= i < |fires| && fires[i].flagged
  }

  /** A rebuild is still to come that will list at `time` or later. */
  ghost predicate RebuildOwed<S>(s: State<S>, time: nat) {
    || s.handlers > 0
    || (s.core.timer.Armed? && time <= s.core.timer.due)
    || s.core.pending
    || SomeFlagged(s.fires)
  }

  /** Whoever is about to write an outdated snapshot will have written it when a rebuild still owed lists. */
  ghost predicate WritersCovered<S>(s: State<S>, interval: nat) {
    && (s.startup.FirstWriting? ==>
          s.startup.at <= s.now && (s.startup.snapshot == s.cache || RebuildOwed(s, s.startup.at + interval)))
    && (forall i | 0 <= i < |s.fires| && s.fires[i].stage.Writing? ::
          && s.fires[i].stage.at <= s.now
          && (s.fires[i].stage.snapshot == s.cache || RebuildOwed(s, s.fires[i].stage.at + interval)))
  }

  /** Someone is still going to write. */
  ghost predicate WriteOwed<S>(s: State<S>) {
    || s.handlers > 0 || s.core.timer != Idle || SomeFlagged(s.fires) || !s.startup.Running?
    || exists i :: 0 <= i < |s.fires| && !s.fires[i].stage.Rearming?
  }

  /** An outdated file, if the last write succeeded, is going to be written again. */
  ghost predicate FileCovered<S>(s: State<S>) {
    && (s.core.pending ==> s.core.timer != Idle)
    && (s.lastWriteOk && s.config != Some(s.cache) ==> WriteOwed(s))
  }

  lemma FlaggedStays<S>(fires: seq<Fire<S>>, i: nat, stage: Stage<S>)
    requires i < |fires|
    ensures SomeFlagged(fires[i := fires[i].(stage := stage)]) <==> SomeFlagged(fires)
  {
    var t := fires[i := fires[i].(stage := stage)];
    assert forall k | 0 <= k < |fires| :: t[k].flagged == fires[k].flagged;
  }

  lemma FlaggedAfterDrop<S>(fires: seq<Fire<S>>, i: nat)
    requires i < |fires| && !fires[i].flagged
    ensures SomeFlagged(Drop(fires, i)) <==> SomeFlagged(fires)
  {
    var t := Drop(fires, i);
    forall k | 0 <= k < |fires| && fires[k].flagged
      ensures SomeFlagged(t)
    {
      assert t[if k < i then k else k - 1] == fires[k];
    }
    forall k | 0 <= k < |t| && t[k].flagged
      ensures SomeFlagged(fires)
    {
      assert t[k] == fires[if k < i then k else k + 1];
    }
  }

  lemma FlaggedAfterLock<S>(fires: seq<Fire<S>>, f: Fire<S>)
    ensures SomeFlagged(fires + [f]) <==> SomeFlagged(fires) || f.flagged
  {
    var t := fires + [f];
    assert t[|fires|] == f;
    forall k | 0 <= k < |fires| && fires[k].flagged
      ensures SomeFlagged(t)
    {
      assert t[k] == fires[k];
    }
  }

  /** A step of a brisk refresher other than a handler's end of duty keeps every debt it does not pay. */
  lemma StepKeepsDebt<S>(s: State<S>, e: Event<S>, interval: nat, at: nat)
    requires Enabled(s, e, interval) && RebuildOwed(s, at + interval) && at <= s.now < at + interval
    ensures RebuildOwed(Step(s, e, interval), at + interval)
  {
    match e
    case FireLock => FlaggedAfterLock(s.fires, Step(s, e, interval).fires[|s.fires|]);
    case FireList(i) => FlaggedStays(s.fires, i, Writing(s.cache, s.now));
    case FireWrite(i, _) => FlaggedStays(s.fires, i, Rearming);
    case FireEnd(i) => if !s.fires[i].flagged { FlaggedAfterDrop(s.fires, i); }
    case _ =>
  }

  lemma StepCoversWriters<S>(s: State<S>, e: Event<S>, interval: nat)
    requires WritersCovered(s, interval) && Brisk(s, interval) && Enabled(s, e, interval)
    ensures WritersCovered(Step(s, e, interval), interval)
  {
    hide RebuildOwed;
    var t := Step(s, e, interval);
    if t.startup.FirstWriting? && !e.FirstList? {
      DebtCarries(s, e, interval, s.startup.snapshot, s.startup.at);
    }
    forall i | 0 <= i < |t.fires| && t.fires[i].stage.Writing?
      ensures t.fires[i].stage.at <= t.now
      ensures t.fires[i].stage.snapshot == t.cache || RebuildOwed(t, t.fires[i].stage.at + interval)
    {
      if e != FireList(i) {
        var k := if e.FireEnd? && i >= e.i then i + 1 else i;
        assert t.fires[i] == s.fires[k];
        DebtCarries(s, e, interval, s.fires[k].stage.snapshot, s.fires[k].stage.at);
      }
    }
  }

  lemma DebtCarries<S>(s: State<S>, e: Event<S>, interval: nat, snapshot: S, at: nat)
    requires Enabled(s, e, interval) && at <= s.now < at + interval
    requires snapshot == s.cache || RebuildOwed(s, at + interval)
    ensures var t := Step(s, e, interval); snapshot == t.cache || RebuildOwed(t, at + interval)
  {
    if RebuildOwed(s, at + interval) {
      StepKeepsDebt(s, e, interval, at);
    }
  }

  lemma StepCoversFile<S>(s: State<S>, e: Event<S>, interval: nat)
    requires WritersCovered(s, interval) && FileCovered(s) && Enabled(s, e, interval)
    ensures FileCovered(Step(s, e, interval))
  {
    var t := Step(s, e, interval);
    match e
    case FireLock =>
      FlaggedAfterLock(s.fires, t.fires[|s.fires|]);
      assert !s.startup.Unsynced? ==> t.fires[|s.fires|].stage.Listing?;
    case FireList(i) => assert t.fires[i].stage.Writing?;
    case FireWrite(i, _) => FlaggedStays(s.fires, i, Rearming);
    case FireEnd(i) =>
      if !s.fires[i].flagged { FlaggedAfterDrop(s.fires, i); }
      forall k | 0 <= k < |s.fires| && !s.fires[k].stage.Rearming?
        ensures WriteOwed(t)
      {
        assert t.fires[if k < i then k else k - 1] == s.fires[k];
      }
    case _ =>
  }

  lemma {:induction false} BriskRunsAreCovered<S>(s: State<S>, es: seq<Event<S>>, interval: nat, bound: nat)
    requires WritersCovered(s, interval) && FileCovered(s) && bound <= interval
    requires Legal(s, es, interval) && BriskRun(s, es, interval, bound)
    ensures FileCovered(Exec(s, es, interval))
    decreases |es|
  {
    if es != [] {
      assert Brisk(s, interval);
      StepCoversWriters(s, es[0], interval);
      StepCoversFile(s, es[0], interval);
      BriskRunsAreCovered(Step(s, es[0], interval), es[1..], interval, bound);
    }
  }

  /**
   * When every rebuild writes within less than one interval of its list, a refresher that has come to rest
   * after a successful last write has the present store in its file. Rebuilds may overlap.
   */
  lemma BriskRefresherIsCurrent<S>(cache: S, es: seq<Event<S>>, interval: nat)
    requires Legal(Start(cache), es, interval) && BriskRun(Start(cache), es, interval, interval)
    requires var t := Exec(Start(cache), es, interval); Quiescent(t) && t.lastWriteOk
    ensures var t := Exec(Start(cache), es, interval); t.config == Some(t.cache)
  {
    BriskRunsAreCovered(Start(cache), es, interval, interval);
  }

  /** Bounding the age of rebuilds by `bound` keeps every resting file current. */
  ghost predicate BoundSuffices<S(!new)>(cache: S, interval: nat, bound: nat) {
    forall es: seq<Event<S>> | Legal(Start(cache), es, interval) && BriskRun(Start(cache), es, interval, bound) ::
      var t := Exec(Start(cache), es, interval); Quiescent(t) && t.lastWriteOk ==> t.config == Some(t.cache)
  }

  /** The bound that keeps every resting file current is exactly the interval, whatever two stores there are. */
  lemma IntervalIsTheBound<S(!new)>(a: S, b: S, interval: nat, bound: nat)
    requires a != b
    ensures BoundSuffices(a, interval, bound) <==> bound <= interval
  {
    if bound <= interval {
      forall es: seq<Event<S>> | Legal(Start(a), es, interval) && BriskRun(Start(a), es, interval, bound)
        ensures var t := Exec(Start(a), es, interval); Quiescent(t) && t.lastWriteOk ==> t.config == Some(t.cache)
      {
        BriskRunsAreCovered(Start(a), es, interval, bound);
      }
    } else {
      var es := OverlapLosesAnUpdate(a, b, interval, bound);
      assert Legal(Start(a), es, interval) && BriskRun(Start(a), es, interval, bound);
    }
  }

  // ---------------------------------------------------------------- how many callbacks, how many steps

  function Flagged<S>(fires: seq<Fire<S>>): nat {
    if fires == [] then 0 else Flagged(fires[..|fires| - 1]) + if fires[|fires| - 1].flagged then 1 else 0
  }

  lemma {:induction false} FlaggedDrop<S>(fires: seq<Fire<S>>, i: nat)
    requires i < |fires|
    ensures Flagged(fires) == Flagged(Drop(fires, i)) + if fires[i].flagged then 1 else 0
  {
    if i < |fires| - 1 {
      var init, last := fires[..|fires| - 1], fires[|fires| - 1];
      FlaggedDrop(init, i);
      assert Drop(fires, i)[..|fires| - 2] == Drop(init, i);
    } else {
      assert Drop(fires, i) == fires[..|fires| - 1];
    }
  }

  lemma {:induction false} FlaggedUpdate<S>(fires: seq<Fire<S>>, i: nat, stage: Stage<S>)
    requires i < |fires|
    ensures Flagged(fires[i := fires[i].(stage := stage)]) == Flagged(fires)
  {
    var t := fires[i := fires[i].(stage := stage)];
    FlaggedDrop(fires, i);
    FlaggedDrop(t, i);
    assert Drop(t, i) == Drop(fires, i);
  }

  /** Callbacks that can still come if nothing changes any more. */
  function Potential<S>(s: State<S>): nat {
    s.handlers + (if s.core.timer != Idle then 1 else 0) + (if s.core.pending then 1 else 0) + Flagged(s.fires)
  }

  function Callbacks<S>(es: seq<Event<S>>): nat {
    if es == [] then 0 else (if es[0].FireLock? then 1 else 0) + Callbacks(es[1..])
  }

  lemma StepPotential<S>(s: State<S>, e: Event<S>, interval: nat)
    requires Enabled(s, e, interval) && !e.Change?
    ensures Potential(Step(s, e, interval)) + (if e.FireLock? then 1 else 0) <= Potential(s)
  {
    match e
    case FireLock =>
      var t := Step(s, e, interval);
      assert t.fires[..|s.fires|] == s.fires;
    case FireList(i) => FlaggedUpdate(s.fires, i, Writing(s.cache, s.now));
    case FireWrite(i, _) => FlaggedUpdate(s.fires, i, Rearming);
    case FireEnd(i) => FlaggedDrop(s.fires, i);
    case _ =>
  }

  /**
   * Once changes stop, the number of further callbacks is bounded, overlapping or not; with every handler
   * run and no flagged callback at work the bound is two.
   */
  lemma {:induction false} FewCallbacksRemain<S>(s: State<S>, es: seq<Event<S>>, interval: nat)
    requires Legal(s, es, interval) && forall k | 0 <= k < |es| :: !es[k].Change?
    ensures Callbacks(es) <= Potential(s)
    ensures s.handlers == 0 && Flagged(s.fires) == 0 ==> Callbacks(es) <= 2
    decreases |es|
  {
    if es != [] {
      StepPotential(s, es[0], interval);
      assert forall k | 0 <= k < |es[1..]| :: es[1..][k] == es[k + 1];
      FewCallbacksRemain(Step(s, es[0], interval), es[1..], interval);
    }
  }

  /** No callback takes the lock while another is at work. */
  ghost predicate OneAtATime<S>(s: State<S>, es: seq<Event<S>>, interval: nat)
    requires Legal(s, es, interval)
    decreases |es|
  {
    es == [] ||
    ((es[0].FireLock? ==> s.fires == []) && OneAtATime(Step(s, es[0], interval), es[1..], interval))
  }

  /** With one callback at a time, a pending flag and a flagged callback together are good for one more. */
  function Remaining<S>(s: State<S>): nat {
    s.handlers + (if s.core.timer != Idle then 1 else 0)
    + (if s.core.pending || (s.fires != [] && s.fires[0].flagged) then 1 else 0)
  }

  lemma StepRemaining<S>(s: State<S>, e: Event<S>, interval: nat)
    requires Enabled(s, e, interval) && !e.Change? && |s.fires| <= 1 && (e.FireLock? ==> s.fires == [])
    requires s.core.pending ==> s.core.timer != Idle
    ensures var t := Step(s, e, interval);
      && |t.fires| <= 1 && (t.core.pending ==> t.core.timer != Idle)
      && Remaining(t) + (if e.FireLock? then 1 else 0) <= Remaining(s)
  {
  }

  /** After the last change and its handlers at most two callbacks remain, even if a flagged one is at work. */
  lemma {:induction false} TwoCallbacksRemain<S>(s: State<S>, es: seq<Event<S>>, interval: nat)
    requires Legal(s, es, interval) && OneAtATime(s, es, interval) && forall k | 0 <= k < |es| :: !es[k].Change?
    requires |s.fires| <= 1 && (s.core.pending ==> s.core.timer != Idle)
    ensures Callbacks(es) <= Remaining(s) <= s.handlers + 2
    decreases |es|
  {
    if es != [] {
      StepRemaining(s, es[0], interval);
      assert forall k | 0 <= k < |es[1..]| :: es[1..][k] == es[k + 1];
      TwoCallbacksRemain(Step(s, es[0], interval), es[1..], interval);
    }
  }

  /** The work one callback still has before it, counting a re-arming as a fresh timer. */
  function FireWork<S>(f: Fire<S>): nat {
    (match f.stage case Listing => 3 case Writing(_, _) => 2 case Rearming => 1) + if f.flagged then 6 else 0
  }

  function FiresWork<S>(fires: seq<Fire<S>>): nat {
    if fires == [] then 0 else FiresWork(fires[..|fires| - 1]) + FireWork(fires[|fires| - 1])
  }

  lemma {:induction false} FiresWorkDrop<S>(fires: seq<Fire<S>>, i: nat)
    requires i < |fires|
    ensures FiresWork(fires) == FiresWork(Drop(fires, i)) + FireWork(fires[i])
  {
    if i < |fires| - 1 {
      var init, last := fires[..|fires| - 1], fires[|fires| - 1];
      FiresWorkDrop(init, i);
      assert Drop(fires, i)[..|fires| - 2] == Drop(init, i);
    } else {
      assert Drop(fires, i) == fires[..|fires| - 1];
    }
  }

  lemma FiresWorkUpdate<S>(fires: seq<Fire<S>>, i: nat, stage: Stage<S>)
    requires i < |fires|
    ensures FiresWork(fires[i := fires[i].(stage := stage)]) + FireWork(fires[i])
         == FiresWork(fires) + FireWork(fires[i].(stage := stage))
  {
    var t := fires[i := fires[i].(stage := stage)];
    FiresWorkDrop(fires, i);
    FiresWorkDrop(t, i);
    assert Drop(t, i) == Drop(fires, i);
  }

  function Work<S>(s: State<S>): nat {
    7 * s.handlers
    + (match s.core.timer case Idle => 0 case Armed(_) => 6 case Expired => 5)
    + (if s.core.pending then 6 else 0)
    + FiresWork(s.fires)
    + (match s.startup case Unsynced => 3 case Synced => 2 case FirstWriting(_, _) => 1 case Running => 0)
  }

  lemma StepWorks<S>(s: State<S>, e: Event<S>, interval: nat)
    requires Enabled(s, e, interval) && !e.Change?
    ensures if e.Wait? then Work(Step(s, e, interval)) == Work(s) else Work(Step(s, e, interval)) < Work(s)
  {
    var t := Step(s, e, interval);
    match e
    case FireLock => assert t.fires[..|s.fires|] == s.fires;
    case FireList(i) => FiresWorkUpdate(s.fires, i, Writing(s.cache, s.now));
    case FireWrite(i, _) => FiresWorkUpdate(s.fires, i, Rearming);
    case FireEnd(i) => FiresWorkDrop(s.fires, i);
    case _ =>
  }

  function Moves<S>(es: seq<Event<S>>): nat {
    if es == [] then 0 else (if es[0].Wait? then 0 else 1) + Moves(es[1..])
  }

  /** Once changes stop, only finitely many steps other than waiting remain. */
  lemma {:induction false} RunsComeToRest<S>(s: State<S>, es: seq<Event<S>>, interval: nat)
    requires Legal(s, es, interval) && forall k | 0 <= k < |es| :: !es[k].Change?
    ensures Moves(es) + Work(Exec(s, es, interval)) <= Work(s)
    decreases |es|
  {
    if es != [] {
      StepWorks(s, es[0], interval);
      assert forall k | 0 <= k < |es[1..]| :: es[1..][k] == es[k + 1];
      RunsComeToRest(Step(s, es[0], interval), es[1..], interval);
    }
  }

  /** And nothing blocks: short of rest, some step can be taken, at worst after waiting for the timer. */
  lemma NeverStuck<S>(s: State<S>, interval: nat) returns (wait: nat, e: Event<S>)
    requires !Quiescent(s)
    ensures !e.Change? && !e.Wait? && Enabled(Step(s, Wait(wait), interval), e, interval)
  {
    wait := 0;
    if s.handlers > 0 {
      e := Handle;
    } else if s.fires != [] {
      e := match s.fires[0].stage
           case Listing => FireList(0)
           case Writing(_, _) => FireWrite(0, true)
           case Rearming => FireEnd(0);
    } else if !s.startup.Running? {
      e := if s.startup.Unsynced? then SetStore else if s.startup.Synced? then FirstList else FirstWrite(true);
    } else if s.core.timer == Expired {
      e := FireLock;
    } else {
      wait := if s.core.timer.due <= s.now then 0 else s.core.timer.due - s.now;
      e := Expire;
    }
  }

  // ---------------------------------------------------------------- where the promise ends

  lemma Prepend<S>(s: State<S>, e: Event<S>, es: seq<Event<S>>, interval: nat, bound: nat) returns (r: seq<Event<S>>)
    requires Enabled(s, e, interval) && Legal(Step(s, e, interval), es, interval)
    requires Brisk(s, bound) && BriskRun(Step(s, e, interval), es, interval, bound)
    ensures Legal(s, r, interval) && Exec(s, r, interval) == Exec(Step(s, e, interval), es, interval)
    ensures BriskRun(s, r, interval, bound)
    ensures Serial(s, r, interval) ==> Serial(Step(s, e, interval), es, interval)
    ensures r == [e] + es
  {
    r := [e] + es;
    assert r[1..] == es;
  }

  /** Even rebuilds that take no time at all may overlap: the initial one and a callback's list together. */
  lemma QuickRebuildsMayOverlap<S>(a: S, b: S, interval: nat) returns (es: seq<Event<S>>)
    ensures Legal(Start(a), es, interval) && BriskRun(Start(a), es, interval, 1) && !Serial(Start(a), es, interval)
  {
    var s0: State<S> := Start(a);
    var s1 := Step(s0, Change(b), interval);
    var s2 := Step(s1, Handle, interval);
    var s3 := Step(s2, Wait(interval), interval);
    var s4 := Step(s3, SetStore, interval);
    var s5 := Step(s4, FirstList, interval);
    var s6 := Step(s5, Expire, interval);
    var s7 := Step(s6, FireLock, interval);
    es := [];
    es := Prepend(s7, FireList(0), es, interval, 1);
    es := Prepend(s6, FireLock, es, interval, 1);
    es := Prepend(s5, Expire, es, interval, 1);
    es := Prepend(s4, FirstList, es, interval, 1);
    es := Prepend(s3, SetStore, es, interval, 1);
    es := Prepend(s2, Wait(interval), es, interval, 1);
    es := Prepend(s1, Handle, es, interval, 1);
    es := Prepend(s0, Change(b), es, interval, 1);
  }

  /**
   * A rebuild of exactly one interval is too slow. Here the initial one overlaps a callback's, its older
   * snapshot is written last, and the refresher rests with an outdated file although every write succeeded.
   */
  lemma OverlapLosesAnUpdate<S>(a: S, b: S, interval: nat, bound: nat) returns (es: seq<Event<S>>)
    requires a != b && interval < bound
    ensures Legal(Start(a), es, interval) && BriskRun(Start(a), es, interval, bound)
    ensures var t := Exec(Start(a), es, interval);
            Quiescent(t) && t.lastWriteOk && t.cache == b && t.config == Some(a)
  {
    var s0: State<S> := Start(a);
    var s1 := Step(s0, SetStore, interval);
    var s2 := Step(s1, FirstList, interval);
    var s3 := Step(s2, Change(b), interval);
    var s4 := Step(s3, Handle, interval);
    var s5 := Step(s4, Wait(interval), interval);
    es := OverlapEnds(s5, a, b, interval, bound);
    es := Prepend(s4, Wait(interval), es, interval, bound);
    es := Prepend(s3, Handle, es, interval, bound);
    es := Prepend(s2, Change(b), es, interval, bound);
    es := Prepend(s1, FirstList, es, interval, bound);
    es := Prepend(s0, SetStore, es, interval, bound);
  }

  /** The second half: the callback runs from list to end while the initial rebuild still holds the old snapshot. */
  lemma OverlapEnds<S>(s5: State<S>, a: S, b: S, interval: nat, bound: nat) returns (es: seq<Event<S>>)
    requires s5.cache == b && s5.handlers == 0 && s5.fires == [] && s5.startup == FirstWriting(a, 0) && !s5.core.pending
    requires s5.core.timer.Armed? && s5.core.timer.due <= s5.now == interval < bound
    ensures Legal(s5, es, interval) && BriskRun(s5, es, interval, bound)
    ensures var t := Exec(s5, es, interval);
            Quiescent(t) && t.lastWriteOk && t.cache == b && t.config == Some(a)
  {
    var s6 := Step(s5, Expire, interval);
    var s7 := Step(s6, FireLock, interval);
    var s8 := Step(s7, FireList(0), interval);
    var s9 := Step(s8, FireWrite(0, true), interval);
    var s10 := Step(s9, FireEnd(0), interval);
    es := [];
    es := Prepend(s10, FirstWrite(true), es, interval, bound);
    es := Prepend(s9, FireEnd(0), es, interval, bound);
    es := Prepend(s8, FireWrite(0, true), es, interval, bound);
    es := Prepend(s7, FireList(0), es, interval, bound);
    es := Prepend(s6, FireLock, es, interval, bound);
    es := Prepend(s5, Expire, es, interval, bound);
  }
}

/** The refresher with real Secrets: the informer's store is a multiset, and a list gives it in some order. */
module RefresherOutput {
  import opened Refresher
  import opened Backends
  import Onion

  /**
   * At rest after a brisk run, the text rendered from whatever order the last list had is the text the
   * present store renders to, in any order.
   */
  lemma RestingFileShowsTheStore(
    sha3: Onion.Hash256, master: Onion.OnionAddress, keyPath: string, uid: string, interval: nat,
    first: multiset<Object>, es: seq<Event<multiset<Object>>>, written: seq<Object>, present: seq<Object>)
    requires Legal(Start(first), es, interval) && BriskRun(Start(first), es, interval, interval)
    requires var t := Exec(Start(first), es, interval);
             && Quiescent(t) && t.lastWriteOk
             && t.config.Some? && multiset(written) == t.config.value && multiset(present) == t.cache
    ensures RebuildText(sha3, master, keyPath, uid, written) == RebuildText(sha3, master, keyPath, uid, present)
  {
    BriskRefresherIsCurrent(first, es, interval);
    ConfigIgnoresListOrder(sha3, master, keyPath, uid, written, present);
  }
}
