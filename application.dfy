/**
 * The application: it creates the components and the mediator, loads the
 * configuration, has the mediator configure and start the modules, and then
 * waits while the application state stays LIVE.
 */
module AppLifecycle {
  import opened Wrappers
  import opened Json
  import Events
  import opened AppContext
  import Messaging
  import GstPipeline
  import opened EventMediator

  /**
   * The position of the first application state, among those the waiting
   * loop reads after each sleep, that is not LIVE; None while every one is.
   */
  function FirstNotLive(observed: seq<int>): (r: Option<nat>)
    ensures r.Some? ==> r.value < |observed| && observed[r.value] != LIVE
    ensures r.Some? ==> forall j :: 0 <= j < r.value ==> observed[j] == LIVE
    ensures r.None? <==> forall j :: 0 <= j < |observed| ==> observed[j] == LIVE
    decreases |observed|
  {
    if observed == [] then None
    else if observed[0] != LIVE then Some(0)
    else
      match FirstNotLive(observed[1..])
      case None => None
      case Some(k) => Some(k + 1)
  }

  /**
   * The events the application sends: `ApplicationEvent(action,
   * MODULE_APPLICATION)` resolves to the inherited constructor, so the module
   * id lands in the event type and no source is recorded.
   */
  predicate IsApplicationEvent(e: Events.EventBase, action: int)
    reads e
  {
    && e.cls == Events.ApplicationEventClass
    && e.Route() == (Events.MODULE_APPLICATION, action, 0, 0)
    && e.GetFlags() == Events.Flags(false, false, false)
  }

  /** `ApplicationEvent(action, MODULE_APPLICATION)`. */
  method NewApplicationEvent(action: int) returns (e: Events.EventBase)
    ensures fresh(e) && IsApplicationEvent(e, action)
  {
    e := new Events.EventBase.Routed(Events.ApplicationEventClass, action, Events.MODULE_APPLICATION, 0, 0);
  }

  class Application {
    var appContext: ApplicationContext?
    var kafka: Messaging.KafkaBroker?
    var pipeline: GstPipeline.Pipeline?
    var mediator: Mediator?

    /** The constructor leaves every component unset; `_set_up` creates them. */
    constructor ()
      ensures appContext == null && kafka == null && pipeline == null && mediator == null
    {
      appContext, kafka, pipeline, mediator := null, null, null, null;
    }

    /** The components exist and the mediator holds exactly them. */
    predicate Wired()
      reads this, mediator
    {
      && appContext != null && kafka != null && pipeline != null && mediator != null
      && mediator.appContext == appContext && mediator.kafka == kafka && mediator.pipeline == pipeline
    }

    /** The objects whose state the notifications change. */
    function Parts(): set<object>
      requires appContext != null && kafka != null && pipeline != null
      reads this, pipeline
    {
      {appContext, kafka, pipeline, pipeline.processor, pipeline.busStruct}
    }

    /**
     * `_set_up`: create the components, load the configuration (whose
     * result is ignored) and have the mediator configure the modules, which
     * run only when every section is accepted.
     */
    method SetUp(doc: Json)
      modifies this
      ensures Wired()
      ensures fresh(appContext) && fresh(kafka) && fresh(pipeline) && fresh(pipeline.processor) && fresh(pipeline.busStruct)
      ensures appContext.configs == (if HasModuleSections(doc) then doc else Null)
      ensures appContext.runState == ModulesAccept(appContext.configs)
      ensures appContext.appState == NO_APP_STATE
      ensures !kafka.producerRun && kafka.tasks == [] && kafka.producerQ == []
      ensures pipeline.processor.metaQueue == []
    {
      var ctx := new ApplicationContext();
      var k := new Messaging.KafkaBroker();
      var p := new GstPipeline.Pipeline();
      var m := new Mediator(ctx, k, p);
      mediator, appContext, kafka, pipeline := m, ctx, k, p;
      var loaded := ctx.LoadModuleConfigs(doc);
      DistributeModuleConfigs();
    }

    /** `_distribute_module_configs`: a CONFIGURE_MODULES event for the mediator. */
    method DistributeModuleConfigs()
      requires Wired()
      modifies Parts()
      ensures appContext.configs == old(appContext.configs)
      ensures appContext.runState == ModulesAccept(appContext.configs)
      ensures appContext.appState == old(appContext.appState)
      ensures kafka.producerRun == old(kafka.producerRun) && kafka.tasks == old(kafka.tasks) && kafka.producerQ == old(kafka.producerQ)
      ensures pipeline.processor.metaQueue == old(pipeline.processor.metaQueue)
    {
      var e := NewApplicationEvent(Events.CONFIGURE_MODULES);
      var c := mediator.Notify(e, Foreign(false, false, []));
    }

    /** `_start_modules`: a START_MODULES event for the mediator. */
    method StartModules(pipelineMade: bool, graphBuilt: bool) returns (c: Completion)
      requires Wired()
      modifies Parts()
      ensures appContext.configs == old(appContext.configs)
      ensures appContext.runState == old(appContext.runState) && appContext.appState == old(appContext.appState)
      ensures !appContext.runState ==>
        && c == Returned(true) && kafka.tasks == old(kafka.tasks)
        && pipeline.processor.metaQueue == old(pipeline.processor.metaQueue)
        && pipeline.processor.displayQueues == old(pipeline.processor.displayQueues)
        && pipeline.busStruct.State() == old(pipeline.busStruct.State())
      ensures appContext.runState ==>
        && kafka.tasks == old(kafka.tasks) + [Messaging.ValidateConnection]
        && (c == Fatal <==> !(pipelineMade && GstPipeline.IsSourceType(pipeline.configs.srcType) && graphBuilt))
        && (c != Fatal ==> c == Returned(true))
    {
      var e := NewApplicationEvent(Events.START_MODULES);
      c := mediator.Notify(e, Foreign(pipelineMade, graphBuilt, []));
    }

    /** `_stop_modules`: a STOP_MODULES event for the mediator. */
    method StopModules(intervals: seq<seq<bool>>) returns (c: Completion)
      requires Wired()
      modifies Parts()
      ensures !old(kafka.producerRun) ==> c == Returned(true) && appContext.appState == SHUT_DOWN && kafka.Producer() == old(kafka.Producer())
      ensures old(kafka.producerRun) ==>
        && (c == StillStopping <==> !Messaging.StopFrom(old(kafka.Producer()), intervals).1)
        && (c != StillStopping ==> c == Returned(true) && appContext.appState == SHUT_DOWN)
    {
      var e := NewApplicationEvent(Events.STOP_MODULES);
      c := mediator.Notify(e, Foreign(false, false, intervals));
    }

    /**
     * The waiting loop of `start`: sleep and re-read the application state
     * while it is LIVE. Other threads change the state; `observed` is what
     * each read after a sleep finds. `checks` counts the reads.
     */
    method WaitWhileLive(observed: seq<int>) returns (checks: nat)
      requires appContext != null
      modifies appContext`appState
      ensures old(appContext.appState) != LIVE ==> checks == 0 && appContext.appState == old(appContext.appState)
      ensures old(appContext.appState) == LIVE && FirstNotLive(observed).Some? ==>
        checks == FirstNotLive(observed).value + 1 && appContext.appState == observed[FirstNotLive(observed).value]
      ensures old(appContext.appState) == LIVE && FirstNotLive(observed).None? ==>
        checks == |observed| && appContext.appState == LIVE
    {
      ghost var start := appContext.appState;
      checks := 0;
      while appContext.appState == LIVE && checks < |observed|
        invariant 0 <= checks <= |observed|
        invariant start != LIVE ==> checks == 0 && appContext.appState == start
        invariant start == LIVE ==> forall j :: 0 <= j < checks - 1 ==> observed[j] == LIVE
        invariant start == LIVE && checks > 0 ==> appContext.appState == observed[checks - 1]
        invariant start == LIVE && checks == 0 ==> appContext.appState == LIVE
      {
        appContext.appState := observed[checks];
        checks := checks + 1;
      }
      if start == LIVE {
        if appContext.appState == LIVE {
          assert forall j :: 0 <= j < |observed| ==> observed[j] == LIVE;
        } else {
          assert FirstNotLive(observed) == Some(checks - 1) by {
            FirstNotLiveUnique(observed, checks - 1);
          }
        }
      }
    }

    /**
     * `start`: set up, start the modules, go LIVE when the modules run, and
     * wait while the state stays LIVE. A pipeline that cannot be set up ends
     * the process.
     */
    method Start(doc: Json, pipelineMade: bool, graphBuilt: bool, observed: seq<int>) returns (c: Completion, checks: nat)
      modifies this
      ensures Wired()
      ensures appContext.configs == (if HasModuleSections(doc) then doc else Null)
      ensures !ModulesAccept(appContext.configs) ==> c == Returned(true) && checks == 0 && appContext.appState == NO_APP_STATE
      ensures ModulesAccept(appContext.configs) ==>
        (c == Fatal <==> !(pipelineMade && GstPipeline.IsSourceType(pipeline.configs.srcType) && graphBuilt))
      ensures ModulesAccept(appContext.configs) && c != Fatal ==>
        && c == Returned(true)
        && kafka.tasks == [Messaging.ValidateConnection]
        && (FirstNotLive(observed).Some? ==> checks == FirstNotLive(observed).value + 1 && appContext.appState == observed[FirstNotLive(observed).value])
        && (FirstNotLive(observed).None? ==> checks == |observed| && appContext.appState == LIVE)
    {
      SetUp(doc);
      c := StartModules(pipelineMade, graphBuilt);
      checks := 0;
      if c == Fatal {
        return;
      }
      if appContext.runState {
        appContext.appState := LIVE;
      }
      checks := WaitWhileLive(observed);
    }
  }

  /** The first non-LIVE position is any non-LIVE position preceded only by LIVE states. */
  lemma {:induction false} FirstNotLiveUnique(observed: seq<int>, k: nat)
    requires k < |observed| && observed[k] != LIVE
    requires forall j :: 0 <= j < k ==> observed[j] == LIVE
    ensures FirstNotLive(observed) == Some(k)
    decreases |observed|
  {
    if k > 0 {
      FirstNotLiveUnique(observed[1..], k - 1);
    }
  }

  /**
   * Once a STOP_MODULES notification has set the state to SHUT_DOWN, the
   * waiting loop ends at the first read that sees it, or earlier.
   */
  lemma ShutDownEndsWait(observed: seq<int>, i: nat)
    requires i < |observed| && observed[i] == SHUT_DOWN
    ensures FirstNotLive(observed).Some? && FirstNotLive(observed).value <= i
  {
    assert observed[i] != LIVE;
  }
}
