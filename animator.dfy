/**
 * The default per-view animator of a screen transition: one animation context
 * per participating view, created by `Animate`, driven by `SeekTo`, `Resume`
 * and `Apply`, and torn down by `Clean`.
 *
 * The per-view context is an external animation driver. The animator sees it as
 * an identity (the object it allocates), the target state it was built from, and
 * the duration it reports; how the duration is computed is the driver's business
 * and is a parameter (`Driver`). Every call the animator makes on a context is
 * recorded, in order, in the ghost `log` of `DefaultAnimator`.
 */
module Animator {

  /** A call made on a per-view context. */
  datatype Call<S> =
    | Start(appearing: bool)
    | Seek(timePassed: real)
    | Resume(timePassed: real, reverse: bool)
    | Apply(state: S)
    | Clean

  /** A per-view context: `id` is its identity (each construction yields a new one),
      `target` the target state it was built from, `duration` what it reports. */
  datatype ViewContext<S> = ViewContext(id: nat, target: S, duration: real)

  /** One recorded call: which view's context, which context, which call. */
  datatype Event<V, S> = Event(view: V, context: nat, call: Call<S>)

  /** The behaviour of the context implementation the animator is instantiated
      with: the duration a context reports once it has started, the duration it
      reports after a resume, and the implementation's static `canAnimate`.
      The start duration also takes the context's identity: it is computed from a
      snapshot and the view's geometry at construction, which this model does not
      see, so two constructions for the same view and target may report different
      durations. */
  datatype Driver<!V, !S> = Driver(
    startDuration: (V, S, bool, nat) -> real,
    resumeDuration: (ViewContext<S>, real, bool) -> real,
    canAnimate: (V, S, bool) -> bool)

  /** One step of `Animate`: start the context of `view`, appearing or not. */
  datatype Visit<V> = Visit(view: V, appearing: bool)

  /** The context built for `view` with identity `id` and started. */
  function NewContext<V, S>(driver: Driver<V, S>, view: V, target: S, id: nat, appearing: bool): (r: ViewContext<S>)
    ensures r.id == id && r.target == target
  {
    ViewContext(id, target, driver.startDuration(view, target, appearing, id))
  }

  /** The context after `resume(timePassed:reverse:)`: the same context, with the
      duration it reports afterwards. */
  function Resumed<V, S>(driver: Driver<V, S>, ctx: ViewContext<S>, timePassed: real, reverse: bool): (r: ViewContext<S>)
    ensures r.id == ctx.id && r.target == ctx.target
  {
    ctx.(duration := driver.resumeDuration(ctx, timePassed, reverse))
  }

  // ---------------------------------------------------------------------------
  // Maximum duration

  /** Moving one key from `pending` to `done` keeps them a partition of `all`. */
  lemma MoveOne<V>(pending: set<V>, done: set<V>, all: set<V>, v: V)
    requires pending !! done && pending + done == all && v in pending
    ensures (pending - {v}) !! (done + {v}) && (pending - {v}) + (done + {v}) == all
    ensures v !in done
  {
  }


  /** `d` is the larger of 0 and the durations of the contexts of `views`. */
  ghost predicate IsMaxOver<V, S>(contexts: map<V, ViewContext<S>>, views: set<V>, d: real)
  {
    && d >= 0.0
    && (forall v :: v in views && v in contexts ==> contexts[v].duration <= d)
    && (d == 0.0 || exists v :: v in views && v in contexts && contexts[v].duration == d)
  }

  /** `d` is the larger of 0 and every duration in `contexts`. */
  ghost predicate IsMaxDuration<V, S>(contexts: map<V, ViewContext<S>>, d: real)
  {
    IsMaxOver(contexts, contexts.Keys, d)
  }

  /** The maximum is determined: at most one value meets `IsMaxOver`. */
  lemma MaxOverUnique<V, S>(contexts: map<V, ViewContext<S>>, views: set<V>, d1: real, d2: real)
    requires IsMaxOver(contexts, views, d1) && IsMaxOver(contexts, views, d2)
    ensures d1 == d2
  {
  }

  /** The larger of 0 and the duration of every stored context, folded in one
      context at a time in no particular order. */
  method MaxDuration<V, S>(contexts: map<V, ViewContext<S>>) returns (duration: real)
    ensures IsMaxDuration(contexts, duration)
  {
    duration := 0.0;
    var pending := contexts.Keys;
    ghost var done: set<V> := {};
    while pending != {}
      invariant pending !! done && pending + done == contexts.Keys
      invariant IsMaxOver(contexts, done, duration)
      decreases pending
    {
      var v :| v in pending;
      MoveOne(pending, done, contexts.Keys, v);
      if duration < contexts[v].duration {
        duration := contexts[v].duration;
      }
      pending, done := pending - {v}, done + {v};
    }
  }

  // ---------------------------------------------------------------------------
  // The order and effect of `Animate`

  /** `views`, each to be started with the same `appearing`. */
  function Tagged<V>(views: seq<V>, appearing: bool): (r: seq<Visit<V>>)
  {
    seq(|views|, i requires 0 <= i < |views| => Visit(views[i], appearing))
  }

  /** The order in which `animate(fromViews:toViews:)` starts contexts. */
  function VisitOrder<V>(insertToViewFirst: bool, fromViews: seq<V>, toViews: seq<V>): (r: seq<Visit<V>>)
    ensures |r| == |fromViews| + |toViews|
    ensures forall i :: 0 <= i < |r| && r[i].appearing ==> r[i].view in toViews
    ensures forall i :: 0 <= i < |r| && !r[i].appearing ==> r[i].view in fromViews
  {
    if insertToViewFirst then Tagged(toViews, true) + Tagged(fromViews, false)
    else Tagged(fromViews, false) + Tagged(toViews, true)
  }

  /** Appearing views are started before disappearing ones exactly when the flag is set. */
  lemma AppearingFirstIffFlag<V>(insertToViewFirst: bool, fromViews: seq<V>, toViews: seq<V>, i: nat, j: nat)
    requires i < |VisitOrder(insertToViewFirst, fromViews, toViews)|
    requires j < |VisitOrder(insertToViewFirst, fromViews, toViews)|
    requires VisitOrder(insertToViewFirst, fromViews, toViews)[i].appearing
    requires !VisitOrder(insertToViewFirst, fromViews, toViews)[j].appearing
    ensures insertToViewFirst <==> i < j
  {
  }

  /** The views visited. */
  function ViewsOf<V>(visits: seq<Visit<V>>): (r: set<V>)
  {
    set i | 0 <= i < |visits| :: visits[i].view
  }

  lemma ViewsOfVisitOrder<V>(insertToViewFirst: bool, fromViews: seq<V>, toViews: seq<V>)
    ensures ViewsOf(VisitOrder(insertToViewFirst, fromViews, toViews))
         == (set v | v in fromViews) + (set v | v in toViews)
  {
    var visits := VisitOrder(insertToViewFirst, fromViews, toViews);
    forall v | v in fromViews
      ensures v in ViewsOf(visits)
    {
      var k :| 0 <= k < |fromViews| && fromViews[k] == v;
      if insertToViewFirst {
        assert visits[|toViews| + k].view == v;
      } else {
        assert visits[k].view == v;
      }
    }
    forall v | v in toViews
      ensures v in ViewsOf(visits)
    {
      var k :| 0 <= k < |toViews| && toViews[k] == v;
      if insertToViewFirst {
        assert visits[k].view == v;
      } else {
        assert visits[|fromViews| + k].view == v;
      }
    }
  }

  /** Every visited view has a declared target state. */
  ghost predicate AllDeclared<V, S>(visits: seq<Visit<V>>, targets: map<V, S>)
  {
    forall i :: 0 <= i < |visits| ==> visits[i].view in targets
  }

  /** The map after starting a context for each visit in turn, the visit at index
      `k` building the context with identity `firstId + k`. */
  function StartAll<V, S>(driver: Driver<V, S>, targets: map<V, S>, contexts: map<V, ViewContext<S>>,
                          visits: seq<Visit<V>>, firstId: nat): (r: map<V, ViewContext<S>>)
    ensures contexts.Keys <= r.Keys
    decreases |visits|
  {
    if visits == [] then contexts
    else
      var n := |visits| - 1;
      var last := visits[n];
      var previous := StartAll(driver, targets, contexts, visits[..n], firstId);
      if last.view in targets then
        previous[last.view := NewContext(driver, last.view, targets[last.view], firstId + n, last.appearing)]
      else previous
  }

  /** Every context was constructed before identity `constructed` was handed out,
      and no two views share a context. */
  ghost predicate DistinctContexts<V, S>(contexts: map<V, ViewContext<S>>, constructed: nat)
  {
    && (forall v :: v in contexts ==> contexts[v].id < constructed)
    && (forall v, w :: v in contexts && w in contexts && v != w ==> contexts[v].id != contexts[w].id)
  }

  /** Starting contexts with fresh identities keeps them distinct. */
  lemma {:induction false} StartAllDistinct<V, S>(driver: Driver<V, S>, targets: map<V, S>,
                                                  contexts: map<V, ViewContext<S>>, visits: seq<Visit<V>>,
                                                  firstId: nat)
    requires DistinctContexts(contexts, firstId)
    ensures DistinctContexts(StartAll(driver, targets, contexts, visits, firstId), firstId + |visits|)
    decreases |visits|
  {
    if visits != [] {
      var n := |visits| - 1;
      StartAllDistinct(driver, targets, contexts, visits[..n], firstId);
    }
  }

  /** The calls recorded while starting the contexts of `visits`. */
  function StartEvents<V, S>(visits: seq<Visit<V>>, firstId: nat): (r: seq<Event<V, S>>)
    ensures |r| == |visits|
    ensures forall k :: 0 <= k < |visits| ==> r[k] == Event(visits[k].view, firstId + k, Start(visits[k].appearing))
  {
    seq(|visits|, k requires 0 <= k < |visits| => Event(visits[k].view, firstId + k, Start(visits[k].appearing)))
  }

  /** Starting one more visit: the map gains that visit's context, the record its start. */
  lemma StartAllStep<V, S>(driver: Driver<V, S>, targets: map<V, S>, contexts: map<V, ViewContext<S>>,
                           visits: seq<Visit<V>>, firstId: nat, i: nat)
    requires AllDeclared(visits, targets)
    requires i < |visits|
    ensures AllDeclared(visits[..i], targets) && AllDeclared(visits[..i + 1], targets)
    ensures StartAll(driver, targets, contexts, visits[..i + 1], firstId)
         == StartAll(driver, targets, contexts, visits[..i], firstId)
              [visits[i].view := NewContext(driver, visits[i].view, targets[visits[i].view], firstId + i, visits[i].appearing)]
    ensures StartEvents<V, S>(visits[..i + 1], firstId)
         == StartEvents<V, S>(visits[..i], firstId) + [Event(visits[i].view, firstId + i, Start(visits[i].appearing))]
  {
    assert visits[..i + 1][..i] == visits[..i];
  }

  /** The keys after starting are the old keys plus every visited view. */
  lemma {:induction false} StartAllKeys<V, S>(driver: Driver<V, S>, targets: map<V, S>,
                                              contexts: map<V, ViewContext<S>>, visits: seq<Visit<V>>, firstId: nat)
    requires AllDeclared(visits, targets)
    ensures StartAll(driver, targets, contexts, visits, firstId).Keys == contexts.Keys + ViewsOf(visits)
    decreases |visits|
  {
    if visits != [] {
      var n := |visits| - 1;
      StartAllKeys(driver, targets, contexts, visits[..n], firstId);
      assert ViewsOf(visits) == ViewsOf(visits[..n]) + {visits[n].view} by {
        forall v ensures v in ViewsOf(visits) <==> v in ViewsOf(visits[..n]) + {visits[n].view} {
          if v in ViewsOf(visits) {
            var k :| 0 <= k < |visits| && visits[k].view == v;
            if k < n { assert visits[..n][k] == visits[k]; }
          }
        }
      }
    }
  }

  /** Last write wins: a view's context is the one built by its last visit. */
  lemma {:induction false} StartAllLastWins<V, S>(driver: Driver<V, S>, targets: map<V, S>,
                                                  contexts: map<V, ViewContext<S>>, visits: seq<Visit<V>>,
                                                  firstId: nat, j: nat)
    requires AllDeclared(visits, targets)
    requires j < |visits|
    requires forall k :: j < k < |visits| ==> visits[k].view != visits[j].view
    ensures visits[j].view in StartAll(driver, targets, contexts, visits, firstId)
    ensures StartAll(driver, targets, contexts, visits, firstId)[visits[j].view]
         == NewContext(driver, visits[j].view, targets[visits[j].view], firstId + j, visits[j].appearing)
    decreases |visits|
  {
    var n := |visits| - 1;
    if j < n {
      assert visits[..n][j] == visits[j];
      StartAllLastWins(driver, targets, contexts, visits[..n], firstId, j);
    }
  }

  /** A view that is not visited keeps its old context, or stays absent. */
  lemma {:induction false} StartAllElsewhere<V, S>(driver: Driver<V, S>, targets: map<V, S>,
                                                   contexts: map<V, ViewContext<S>>, visits: seq<Visit<V>>,
                                                   firstId: nat, v: V)
    requires AllDeclared(visits, targets)
    requires v !in ViewsOf(visits)
    ensures v in StartAll(driver, targets, contexts, visits, firstId) <==> v in contexts
    ensures v in contexts ==> StartAll(driver, targets, contexts, visits, firstId)[v] == contexts[v]
    decreases |visits|
  {
    if visits != [] {
      var n := |visits| - 1;
      assert visits[n].view != v;
      assert ViewsOf(visits[..n]) <= ViewsOf(visits) by {
        forall w | w in ViewsOf(visits[..n]) ensures w in ViewsOf(visits) {
          var k :| 0 <= k < n && visits[..n][k].view == w;
          assert visits[k].view == w;
        }
      }
      StartAllElsewhere(driver, targets, contexts, visits[..n], firstId, v);
    }
  }

  /** Starting `a` then `b` is starting `a + b`. */
  lemma {:induction false} StartAllAppend<V, S>(driver: Driver<V, S>, targets: map<V, S>,
                                                contexts: map<V, ViewContext<S>>,
                                                a: seq<Visit<V>>, b: seq<Visit<V>>, firstId: nat)
    requires AllDeclared(a, targets) && AllDeclared(b, targets)
    ensures AllDeclared(a + b, targets)
    ensures StartAll(driver, targets, contexts, a + b, firstId)
         == StartAll(driver, targets, StartAll(driver, targets, contexts, a, firstId), b, firstId + |a|)
    decreases |b|
  {
    if b == [] {
      assert a + b == a;
    } else {
      var n := |b| - 1;
      assert (a + b)[..|a| + n] == a + b[..n];
      assert (a + b)[|a| + n] == b[n];
      StartAllAppend(driver, targets, contexts, a, b[..n], firstId);
    }
  }

  /** Both orders of `animate(fromViews:toViews:)`: the map after the two loops,
      one after the other, is the map after starting the contexts in `VisitOrder`. */
  lemma StartInOrder<V, S>(driver: Driver<V, S>, targets: map<V, S>, insertToViewFirst: bool,
                           fromViews: seq<V>, toViews: seq<V>, firstId: nat,
                           before: map<V, ViewContext<S>>, mid: map<V, ViewContext<S>>, after: map<V, ViewContext<S>>)
    requires AllDeclared(Tagged(fromViews, false), targets) && AllDeclared(Tagged(toViews, true), targets)
    requires insertToViewFirst ==>
      && mid == StartAll(driver, targets, before, Tagged(toViews, true), firstId)
      && after == StartAll(driver, targets, mid, Tagged(fromViews, false), firstId + |toViews|)
    requires !insertToViewFirst ==>
      && mid == StartAll(driver, targets, before, Tagged(fromViews, false), firstId)
      && after == StartAll(driver, targets, mid, Tagged(toViews, true), firstId + |fromViews|)
    ensures AllDeclared(VisitOrder(insertToViewFirst, fromViews, toViews), targets)
    ensures after == StartAll(driver, targets, before, VisitOrder(insertToViewFirst, fromViews, toViews), firstId)
  {
    var from, to := Tagged(fromViews, false), Tagged(toViews, true);
    if insertToViewFirst {
      StartAllAppend(driver, targets, before, to, from, firstId);
    } else {
      StartAllAppend(driver, targets, before, from, to, firstId);
    }
  }

  /** Starting two runs of visits one after the other logs the calls of the first
      run, then those of the second with the identities that follow. */
  lemma StartEventsAppend<V, S>(a: seq<Visit<V>>, b: seq<Visit<V>>, firstId: nat)
    ensures StartEvents<V, S>(a + b, firstId) == StartEvents(a, firstId) + StartEvents(b, firstId + |a|)
  {
    var lhs, rhs := StartEvents<V, S>(a + b, firstId), StartEvents<V, S>(a, firstId) + StartEvents(b, firstId + |a|);
    forall k | 0 <= k < |lhs|
      ensures lhs[k] == rhs[k]
    {
      if k >= |a| {
        assert (a + b)[k] == b[k - |a|];
      }
    }
  }

  /** The calls recorded by the two loops, one after the other, are the starts in `VisitOrder`. */
  lemma StartEventsInOrder<V, S>(insertToViewFirst: bool, fromViews: seq<V>, toViews: seq<V>, firstId: nat,
                                 before: seq<Event<V, S>>, mid: seq<Event<V, S>>, after: seq<Event<V, S>>)
    requires insertToViewFirst ==>
      && mid == before + StartEvents(Tagged(toViews, true), firstId)
      && after == mid + StartEvents(Tagged(fromViews, false), firstId + |toViews|)
    requires !insertToViewFirst ==>
      && mid == before + StartEvents(Tagged(fromViews, false), firstId)
      && after == mid + StartEvents(Tagged(toViews, true), firstId + |fromViews|)
    ensures after == before + StartEvents(VisitOrder(insertToViewFirst, fromViews, toViews), firstId)
  {
    var from, to := Tagged(fromViews, false), Tagged(toViews, true);
    if insertToViewFirst {
      StartEventsAppend<V, S>(to, from, firstId);
    } else {
      StartEventsAppend<V, S>(from, to, firstId);
    }
  }

  /** After `animate(fromViews:toViews:)` the keys are the old keys plus every view
      passed in, and every other view keeps its old context. */
  lemma StartInOrderFrame<V, S>(driver: Driver<V, S>, targets: map<V, S>, contexts: map<V, ViewContext<S>>,
                                insertToViewFirst: bool, fromViews: seq<V>, toViews: seq<V>, firstId: nat)
    requires AllDeclared(VisitOrder(insertToViewFirst, fromViews, toViews), targets)
    ensures StartAll(driver, targets, contexts, VisitOrder(insertToViewFirst, fromViews, toViews), firstId).Keys
         == contexts.Keys + (set v | v in fromViews) + (set v | v in toViews)
    ensures forall v :: v in contexts && v !in fromViews && v !in toViews ==>
              StartAll(driver, targets, contexts, VisitOrder(insertToViewFirst, fromViews, toViews), firstId)[v]
              == contexts[v]
  {
    var visits := VisitOrder(insertToViewFirst, fromViews, toViews);
    StartAllKeys(driver, targets, contexts, visits, firstId);
    ViewsOfVisitOrder(insertToViewFirst, fromViews, toViews);
    forall v | v in contexts && v !in fromViews && v !in toViews
      ensures StartAll(driver, targets, contexts, visits, firstId)[v] == contexts[v]
    {
      StartAllElsewhere(driver, targets, contexts, visits, firstId, v);
    }
  }

  // ---------------------------------------------------------------------------
  // Fan-out

  /** `events` makes call `c` exactly once on the context of each view in `views`
      (as the context stood in `contexts`), and on no other. */
  ghost predicate CallsEachOnce<V, S>(events: seq<Event<V, S>>, contexts: map<V, ViewContext<S>>,
                                      views: set<V>, c: Call<S>)
  {
    && (forall i :: 0 <= i < |events| ==>
          events[i].view in views && events[i].view in contexts
          && events[i] == Event(events[i].view, contexts[events[i].view].id, c))
    && (forall i, j :: 0 <= i < j < |events| ==> events[i].view != events[j].view)
    && (forall v :: v in views ==> exists i :: 0 <= i < |events| && events[i].view == v)
  }

  /** `log` is `log0` followed by call `c` made exactly once on the context of
      each view in `views`. */
  ghost predicate FannedOut<V, S>(log0: seq<Event<V, S>>, log: seq<Event<V, S>>,
                                  contexts: map<V, ViewContext<S>>, views: set<V>, c: Call<S>)
  {
    && |log0| <= |log|
    && log[..|log0|] == log0
    && CallsEachOnce(log[|log0|..], contexts, views, c)
  }

  /** Extending a fan-out by the call on one more view. */
  lemma FannedOutStep<V, S>(log0: seq<Event<V, S>>, log: seq<Event<V, S>>,
                            contexts: map<V, ViewContext<S>>, views: set<V>, c: Call<S>, v: V)
    requires FannedOut(log0, log, contexts, views, c)
    requires v in contexts && v !in views
    ensures FannedOut(log0, log + [Event(v, contexts[v].id, c)], contexts, views + {v}, c)
  {
    var e := Event(v, contexts[v].id, c);
    var events, events' := log[|log0|..], (log + [e])[|log0|..];
    assert events' == events + [e];
    assert (log + [e])[..|log0|] == log0;
    forall i | 0 <= i < |events'|
      ensures events'[i].view in views + {v} && events'[i].view in contexts
      ensures events'[i] == Event(events'[i].view, contexts[events'[i].view].id, c)
    {
      if i < |events| {
        assert events'[i] == events[i];
      }
    }
    forall i, j | 0 <= i < j < |events'|
      ensures events'[i].view != events'[j].view
    {
      assert events'[i] == events[i];
      if j < |events| {
        assert events'[j] == events[j];
      }
    }
    forall w | w in views + {v}
      ensures exists i :: 0 <= i < |events'| && events'[i].view == w
    {
      if w == v {
        assert events'[|events|].view == v;
      } else {
        var i :| 0 <= i < |events| && events[i].view == w;
        assert events'[i].view == w;
      }
    }
  }

  /** The contexts of `done` have been resumed, the others are as in `contexts0`. */
  ghost predicate ResumedSoFar<V, S>(driver: Driver<V, S>, contexts0: map<V, ViewContext<S>>,
                                     contexts: map<V, ViewContext<S>>, done: set<V>,
                                     timePassed: real, reverse: bool)
  {
    && contexts.Keys == contexts0.Keys
    && (forall v :: v in contexts ==>
          contexts[v] == if v in done then Resumed(driver, contexts0[v], timePassed, reverse) else contexts0[v])
  }

  /** Resuming one more context, and folding its new duration into the maximum. */
  lemma ResumeStep<V, S>(driver: Driver<V, S>, contexts0: map<V, ViewContext<S>>,
                         contexts: map<V, ViewContext<S>>, done: set<V>,
                         timePassed: real, reverse: bool, duration: real, v: V)
    requires ResumedSoFar(driver, contexts0, contexts, done, timePassed, reverse)
    requires IsMaxOver(contexts, done, duration)
    requires v in contexts && v !in done
    ensures var context := Resumed(driver, contexts[v], timePassed, reverse);
      && ResumedSoFar(driver, contexts0, contexts[v := context], done + {v}, timePassed, reverse)
      && IsMaxOver(contexts[v := context], done + {v},
                   if duration < context.duration then context.duration else duration)
  {
  }

  /** Once every context is resumed, each is the resumed old one, and resuming
      keeps identities, so they stay distinct. */
  lemma ResumedAll<V, S>(driver: Driver<V, S>, contexts0: map<V, ViewContext<S>>,
                         contexts: map<V, ViewContext<S>>, timePassed: real, reverse: bool, constructed: nat)
    requires ResumedSoFar(driver, contexts0, contexts, contexts0.Keys, timePassed, reverse)
    requires DistinctContexts(contexts0, constructed)
    ensures DistinctContexts(contexts, constructed)
    ensures forall v :: v in contexts ==> contexts[v] == Resumed(driver, contexts0[v], timePassed, reverse)
  {
  }

  // ---------------------------------------------------------------------------
  // The animator

  class DefaultAnimator<V(==), S> {
    /** The context implementation the animator is instantiated with. */
    const driver: Driver<V, S>
    /** The target states the shared transition context declares, per view. */
    var targets: map<V, S>
    /** `viewContexts`: at most one context per view. */
    var viewContexts: map<V, ViewContext<S>>
    /** Whether appearing views are started before disappearing ones. */
    var insertToViewFirst: bool
    /** Number of contexts constructed so far; the next one gets this identity. */
    var constructed: nat
    /** Every call made on any context, in order. */
    ghost var log: seq<Event<V, S>>

    /** Each context was constructed by this animator, and no two views share one. */
    ghost predicate Valid()
      reads this
    {
      DistinctContexts(viewContexts, constructed)
    }

    constructor (driver: Driver<V, S>, targets: map<V, S>)
      ensures Valid()
      ensures this.driver == driver && this.targets == targets
      ensures viewContexts == map[] && !insertToViewFirst && constructed == 0 && log == []
    {
      this.driver := driver;
      this.targets := targets;
      viewContexts := map[];
      insertToViewFirst := false;
      constructed := 0;
      log := [];
    }

    /** `seekTo(timePassed:)`: seek every context once; nothing else changes. */
    method SeekTo(timePassed: real)
      requires Valid()
      modifies this`log
      ensures Valid()
      ensures FannedOut(old(log), log, viewContexts, viewContexts.Keys, Call.Seek(timePassed))
    {
      var contexts := viewContexts;
      ghost var log0 := log;
      var pending := contexts.Keys;
      ghost var done: set<V> := {};
      while pending != {}
        invariant pending !! done && pending + done == contexts.Keys
        invariant FannedOut(log0, log, contexts, done, Call.Seek(timePassed))
        decreases pending
      {
        var v :| v in pending;
        MoveOne(pending, done, contexts.Keys, v);
        FannedOutStep(log0, log, contexts, done, Call.Seek(timePassed), v);
        log := log + [Event(v, contexts[v].id, Call.Seek(timePassed))];
        pending, done := pending - {v}, done + {v};
      }
    }

    /** `resume(timePassed:reverse:)`: resume every context once and return the
        larger of 0 and the durations they report afterwards. */
    method Resume(timePassed: real, reverse: bool) returns (duration: real)
      requires Valid()
      modifies this`viewContexts, this`log
      ensures Valid()
      ensures viewContexts.Keys == old(viewContexts).Keys
      ensures forall v :: v in viewContexts ==>
                viewContexts[v] == Resumed(driver, old(viewContexts)[v], timePassed, reverse)
      ensures FannedOut(old(log), log, old(viewContexts), old(viewContexts).Keys, Call.Resume(timePassed, reverse))
      ensures IsMaxDuration(viewContexts, duration)
    {
      ghost var contexts0, log0 := viewContexts, log;
      var contexts := viewContexts;
      ghost var events := log;
      duration := 0.0;
      var pending := contexts.Keys;
      ghost var done: set<V> := {};
      while pending != {}
        invariant pending !! done && pending + done == contexts0.Keys
        invariant ResumedSoFar(driver, contexts0, contexts, done, timePassed, reverse)
        invariant FannedOut(log0, events, contexts0, done, Call.Resume(timePassed, reverse))
        invariant IsMaxOver(contexts, done, duration)
        decreases pending
      {
        var v :| v in pending;
        MoveOne(pending, done, contexts0.Keys, v);
        ResumeStep(driver, contexts0, contexts, done, timePassed, reverse, duration, v);
        FannedOutStep(log0, events, contexts0, done, Call.Resume(timePassed, reverse), v);
        events := events + [Event(v, contexts[v].id, Call.Resume(timePassed, reverse))];
        var context := Resumed(driver, contexts[v], timePassed, reverse);
        contexts := contexts[v := context];
        if duration < context.duration {
          duration := context.duration;
        }
        pending, done := pending - {v}, done + {v};
      }
      ResumedAll(driver, contexts0, contexts, timePassed, reverse, constructed);
      viewContexts, log := contexts, events;
    }

    /** `apply(state:to:)`: forwarded to the context of `view` only, if it has one. */
    method Apply(state: S, view: V)
      requires Valid()
      modifies this`log
      ensures Valid()
      ensures view in viewContexts ==> log == old(log) + [Event(view, viewContexts[view].id, Call.Apply(state))]
      ensures view !in viewContexts ==> log == old(log)
    {
      if view in viewContexts {
        log := log + [Event(view, viewContexts[view].id, Call.Apply(state))];
      }
    }

    /** `canAnimate(view:appearing:)`: false when the view has no declared target
        state, otherwise the context implementation's verdict on that state. */
    function CanAnimate(view: V, appearing: bool): (b: bool)
      reads this
      ensures view !in targets ==> !b
      ensures view in targets ==> (b <==> driver.canAnimate(view, targets[view], appearing))
    {
      view in targets && driver.canAnimate(view, targets[view], appearing)
    }

    /** `animate(view:appearing:)`: build a new context for `view` from its
        declared target state, store it (replacing any previous one) and start it. */
    method AnimateView(view: V, appearing: bool)
      requires view in targets
      modifies this`viewContexts, this`constructed, this`log
      ensures viewContexts == old(viewContexts)[view := NewContext(driver, view, targets[view], old(constructed), appearing)]
      ensures constructed == old(constructed) + 1
      ensures log == old(log) + [Event(view, old(constructed), Call.Start(appearing))]
    {
      var viewContext := NewContext(driver, view, targets[view], constructed, appearing);
      constructed := constructed + 1;
      viewContexts := viewContexts[view := viewContext];
      log := log + [Event(view, viewContext.id, Call.Start(appearing))];
    }

    /** Starts the context of each view in turn, all with the same `appearing`. */
    method AnimateEach(views: seq<V>, appearing: bool)
      requires forall v :: v in views ==> v in targets
      modifies this`viewContexts, this`constructed, this`log
      ensures AllDeclared(Tagged(views, appearing), targets)
      ensures viewContexts == StartAll(driver, targets, old(viewContexts), Tagged(views, appearing), old(constructed))
      ensures constructed == old(constructed) + |views|
      ensures log == old(log) + StartEvents(Tagged(views, appearing), old(constructed))
    {
      ghost var visits := Tagged(views, appearing);
      ghost var contexts0, firstId, log0 := viewContexts, constructed, log;
      assert AllDeclared(visits, targets);
      for i := 0 to |views|
        invariant constructed == firstId + i
        invariant viewContexts == StartAll(driver, targets, contexts0, visits[..i], firstId)
        invariant log == log0 + StartEvents<V, S>(visits[..i], firstId)
      {
        StartAllStep(driver, targets, contexts0, visits, firstId, i);
        AnimateView(views[i], appearing);
      }
      assert visits[..|views|] == visits;
    }

    /** `animate(fromViews:toViews:)`: start one context per view, to-views first
        when `insertToViewFirst` is set and from-views first otherwise, and return
        the larger of 0 and every duration in the map, old entries included. */
    method Animate(fromViews: seq<V>, toViews: seq<V>) returns (duration: real)
      requires Valid()
      requires forall v :: v in fromViews ==> v in targets
      requires forall v :: v in toViews ==> v in targets
      modifies this`viewContexts, this`constructed, this`log
      ensures Valid()
      ensures AllDeclared(VisitOrder(insertToViewFirst, fromViews, toViews), targets)
      ensures viewContexts == StartAll(driver, targets, old(viewContexts),
                                       VisitOrder(insertToViewFirst, fromViews, toViews), old(constructed))
      ensures log == old(log) + StartEvents<V, S>(VisitOrder(insertToViewFirst, fromViews, toViews), old(constructed))
      ensures constructed == old(constructed) + |fromViews| + |toViews|
      ensures viewContexts.Keys == old(viewContexts).Keys + (set v | v in fromViews) + (set v | v in toViews)
      ensures forall v :: v in old(viewContexts) && v !in fromViews && v !in toViews ==>
                viewContexts[v] == old(viewContexts)[v]
      ensures IsMaxDuration(viewContexts, duration)
    {
      ghost var before, firstId, log0 := viewContexts, constructed, log;
      ghost var mid, logMid;
      if insertToViewFirst {
        AnimateEach(toViews, true);
        mid, logMid := viewContexts, log;
        AnimateEach(fromViews, false);
      } else {
        AnimateEach(fromViews, false);
        mid, logMid := viewContexts, log;
        AnimateEach(toViews, true);
      }
      StartInOrder(driver, targets, insertToViewFirst, fromViews, toViews, firstId, before, mid, viewContexts);
      StartEventsInOrder(insertToViewFirst, fromViews, toViews, firstId, log0, logMid, log);
      StartInOrderFrame(driver, targets, before, insertToViewFirst, fromViews, toViews, firstId);
      StartAllDistinct(driver, targets, before, VisitOrder(insertToViewFirst, fromViews, toViews), firstId);
      duration := MaxDuration(viewContexts);
    }

    /** `clean()`: clean every context once, then drop them all and reset the flag. */
    method Clean()
      requires Valid()
      modifies this`viewContexts, this`insertToViewFirst, this`log
      ensures Valid()
      ensures viewContexts == map[] && !insertToViewFirst
      ensures FannedOut(old(log), log, old(viewContexts), old(viewContexts).Keys, Call.Clean)
      ensures old(viewContexts) == map[] ==> log == old(log)
    {
      var pending := viewContexts.Keys;
      ghost var done: set<V> := {};
      while pending != {}
        invariant viewContexts == old(viewContexts)
        invariant pending !! done && pending + done == viewContexts.Keys
        invariant FannedOut(old(log), log, viewContexts, done, Call.Clean)
        invariant done == {} ==> log == old(log)
        decreases pending
      {
        var v :| v in pending;
        MoveOne(pending, done, viewContexts.Keys, v);
        FannedOutStep(old(log), log, viewContexts, done, Call.Clean, v);
        log := log + [Event(v, viewContexts[v].id, Call.Clean)];
        pending, done := pending - {v}, done + {v};
      }
      viewContexts := map[];
      insertToViewFirst := false;
    }
  }
}
