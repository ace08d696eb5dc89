/**
 * The mediator: the one place events are handled. It configures the
 * modules from the application context, starts and stops them, and moves
 * records from the processor's meta queue to the Kafka producer queue.
 * Results of foreign work it triggers (building the GStreamer graph, the
 * producer thread's progress while stopping) are inputs.
 */
module EventMediator {
  import opened Wrappers
  import opened Json
  import Events
  import opened AppContext
  import GstProcessing
  import Messaging
  import GstPipeline

  /** The results of the foreign work a notification can trigger. */
  datatype Foreign = Foreign(pipelineMade: bool, graphBuilt: bool, stopIntervals: seq<seq<bool>>)

  /** How a call to `notify` ends. */
  datatype Completion =
    | Returned(released: bool)   // `notify` returned; `released` is the clean-up rule's verdict
    | Fatal                      // the pipeline could not be set up: LOG(FATAL) ends the process
    | Threw                      // an empty payload was popped: `get_meta_queue` threw
    | StillStopping              // `kafka.stop` is still waiting for the producer queue to drain

  /** Whether the pipeline, processing and messaging sections of a document are all accepted. */
  predicate ModulesAccept(configs: Json)
  {
    && GstPipeline.PipelineConfOk(Get(configs, "pipeline"))
    && GstProcessing.AcceptsProcessingConf(Get(configs, "processing"))
    && Messaging.AcceptsKafkaConf(Get(configs, "messaging"))
  }

  /** A context whose load failed holds null, and null sections are refused, so the modules do not run. */
  lemma UnloadedConfigsRefused()
    ensures !ModulesAccept(Null)
  {
    assert !Get(Get(Null, "pipeline"), "src_type").Str?;
  }

  /**
   * The producer queue and the meta queue when every record is pushed and
   * then, at once, forwarded by a publish notification, as the frame loop
   * of the probe does.
   */
  function Interleaved(meta: seq<Json>, producer: seq<Json>, records: seq<Json>): (seq<Json>, seq<Json>)
    decreases |records|
  {
    if records == [] then (meta, producer)
    else
      var pushed := meta + [records[0]];
      Interleaved(pushed[1..], producer + [pushed[0]], records[1..])
  }

  /**
   * Pushing and forwarding record by record ends where pushing the whole
   * batch and then forwarding as many records ends: both queues are FIFO.
   */
  lemma {:induction false} InterleavedIsBatched(meta: seq<Json>, producer: seq<Json>, records: seq<Json>)
    ensures Interleaved(meta, producer, records) == ((meta + records)[|records|..], producer + (meta + records)[..|records|])
    decreases |records|
  {
    var all := meta + records;
    if records == [] {
      assert all == meta && all[..0] == [] && producer + [] == producer;
    } else {
      var k := |records|;
      var pushed := meta + [records[0]];
      InterleavedIsBatched(pushed[1..], producer + [pushed[0]], records[1..]);
      assert pushed[1..] + records[1..] == all[1..];
      assert pushed[0] == all[0];
      assert all[1..][k - 1..] == all[k..];
      assert all[..k] == [all[0]] + all[1..][..k - 1];
      assert producer + [pushed[0]] + all[1..][..k - 1] == producer + all[..k];
    }
  }

  class Mediator {
    const appContext: ApplicationContext
    const kafka: Messaging.KafkaBroker
    const pipeline: GstPipeline.Pipeline

    constructor (appContext: ApplicationContext, kafka: Messaging.KafkaBroker, pipeline: GstPipeline.Pipeline)
      ensures this.appContext == appContext && this.kafka == kafka && this.pipeline == pipeline
    {
      this.appContext := appContext;
      this.kafka := kafka;
      this.pipeline := pipeline;
    }

    /**
     * CONFIGURE_MODULES: hand each module its section, pipeline first, then
     * processing, then Kafka, stopping at the first refusal; the run flag
     * says whether all three accepted.
     */
    method Configure(event: Events.EventBase)
      modifies event`owned, event`completed, appContext`runState, pipeline`configs, pipeline.processor`configs
      modifies kafka`producerTopic, kafka`kafkaServerIp, kafka`producerEnable
      ensures var p := Get(appContext.configs, "pipeline");
        var q := Get(appContext.configs, "processing");
        var k := Get(appContext.configs, "messaging");
        && appContext.runState == ModulesAccept(appContext.configs)
        && pipeline.configs == (if GstPipeline.AcceptsPipelineConf(p) then GstPipeline.StoredConfigs(p) else old(pipeline.configs))
        && pipeline.processor.configs == (if GstPipeline.PipelineConfOk(p) && GstProcessing.AcceptsProcessingConf(q) then GstProcessing.SettingsOf(q) else old(pipeline.processor.configs))
        && (GstPipeline.PipelineConfOk(p) && GstProcessing.AcceptsProcessingConf(q) && Messaging.AcceptsKafkaConf(k) ==>
              kafka.producerTopic == Messaging.PRODUCER_TOPIC && kafka.kafkaServerIp == Get(k, "kafka_server_ip").s && kafka.producerEnable == Get(k, "enable").b)
        && (!(GstPipeline.PipelineConfOk(p) && GstProcessing.AcceptsProcessingConf(q) && Messaging.AcceptsKafkaConf(k)) ==>
              kafka.producerTopic == old(kafka.producerTopic) && kafka.kafkaServerIp == old(kafka.kafkaServerIp) && kafka.producerEnable == old(kafka.producerEnable))
      ensures event.GetFlags() == Events.Flags(old(event.accepted), false, true)
    {
      event.Own();
      var ok := pipeline.SetConfigs(appContext.GetConfigs(Events.PIPELINE).value);
      if ok {
        ok := pipeline.processor.SetConfigs(appContext.GetConfigs(Events.PROCESSING).value);
        if ok {
          ok := kafka.SetConfigs(appContext.GetConfigs(Events.KAFKA).value);
        }
      }
      appContext.runState := ok;
      event.End();
    }

    /**
     * START_MODULES: with the run flag set, start Kafka and then the
     * pipeline; otherwise do nothing. A pipeline that cannot be set up is
     * fatal, after Kafka was already started.
     */
    method StartModules(event: Events.EventBase, pipelineMade: bool, graphBuilt: bool) returns (fatal: bool)
      modifies event`owned, event`completed, kafka`tasks
      modifies pipeline.processor`metaQueue, pipeline.processor`displayQueues, pipeline.busStruct
      ensures appContext.runState ==>
        && kafka.tasks == old(kafka.tasks) + [Messaging.ValidateConnection]
        && (fatal <==> !(pipelineMade && GstPipeline.IsSourceType(pipeline.configs.srcType) && graphBuilt))
        && pipeline.processor.metaQueue == [] && |pipeline.processor.displayQueues| == pipeline.configs.sourceCount
      ensures !appContext.runState ==>
        && !fatal && kafka.tasks == old(kafka.tasks)
        && pipeline.processor.metaQueue == old(pipeline.processor.metaQueue)
        && pipeline.processor.displayQueues == old(pipeline.processor.displayQueues)
        && pipeline.busStruct.State() == old(pipeline.busStruct.State())
      ensures !fatal ==> event.GetFlags() == Events.Flags(old(event.accepted), false, true)
    {
      event.Own();
      fatal := false;
      if appContext.runState {
        kafka.Start();
        fatal := pipeline.Start(pipelineMade, graphBuilt);
        if fatal {
          return;
        }
      }
      event.End();
    }

    /**
     * STOP_MODULES: stop Kafka if its producer runs, then mark the
     * application for shut-down. `returned` is false while the broker's
     * `stop` is still waiting.
     */
    method StopModules(event: Events.EventBase, intervals: seq<seq<bool>>) returns (returned: bool)
      modifies event`owned, event`completed, appContext`appState
      modifies kafka`producerRun, kafka`producerQ, kafka`sent, kafka`tasks
      ensures old(kafka.producerRun) ==> (kafka.Producer(), returned) == Messaging.StopFrom(old(kafka.Producer()), intervals)
      ensures !old(kafka.producerRun) ==> kafka.Producer() == old(kafka.Producer()) && returned
      ensures returned ==> appContext.appState == SHUT_DOWN && event.GetFlags() == Events.Flags(old(event.accepted), false, true)
      ensures !returned ==> appContext.appState == old(appContext.appState)
    {
      event.Own();
      returned := true;
      if kafka.GetRunState() {
        returned := kafka.Stop(intervals);
        if !returned {
          return;
        }
      }
      appContext.KillApp();
      event.End();
    }

    /**
     * KAFKA_PRODUCE_PAYLOAD: pop the front record of the processor's meta
     * queue and publish it. The C++ reads the front of the queue without
     * checking it, so a record must be waiting; the event must be a
     * `KafkaEvent` for the `dynamic_cast` to give an object.
     */
    method ProducePayload(event: Events.EventBase) returns (threw: bool)
      requires event.cls == Events.KafkaEventClass && pipeline.processor.metaQueue != []
      modifies event`owned, event`completed, pipeline.processor`metaQueue, kafka`producerQ
      ensures pipeline.processor.metaQueue == old(pipeline.processor.metaQueue)[1..]
      ensures threw <==> IsEmpty(old(pipeline.processor.metaQueue)[0])
      ensures !threw ==> kafka.producerQ == old(kafka.producerQ) + [old(pipeline.processor.metaQueue)[0]]
      ensures !threw ==> event.GetFlags() == Events.Flags(old(event.accepted), false, true)
      ensures threw ==> kafka.producerQ == old(kafka.producerQ)
    {
      event.Own();
      var payload := pipeline.processor.GetMetaQueue();
      if payload.None? {
        return true;
      }
      kafka.Publish(payload.value);
      event.End();
      threw := false;
    }

    /**
     * `notify`: dispatch on the action, then apply the clean-up rule (an
     * event that is completed and not owned is deleted). Any other action
     * changes nothing.
     */
    method Notify(event: Events.EventBase, foreign: Foreign) returns (c: Completion)
      requires event.action == Events.KAFKA_PRODUCE_PAYLOAD ==> event.cls == Events.KafkaEventClass && pipeline.processor.metaQueue != []
      modifies event`owned, event`completed, appContext`runState, appContext`appState
      modifies pipeline`configs, pipeline.processor`configs, pipeline.processor`metaQueue, pipeline.processor`displayQueues, pipeline.busStruct
      modifies kafka`producerTopic, kafka`kafkaServerIp, kafka`producerEnable, kafka`producerRun, kafka`producerQ, kafka`sent, kafka`tasks
      ensures event.action in {Events.CONFIGURE_MODULES, Events.START_MODULES, Events.STOP_MODULES, Events.KAFKA_PRODUCE_PAYLOAD} ==>
        (c.Returned? ==> c.released && event.Released())
      ensures event.action == Events.CONFIGURE_MODULES ==> c == Returned(true)
      ensures event.action == Events.CONFIGURE_MODULES ==>
        && appContext.runState == ModulesAccept(appContext.configs)
        && appContext.appState == old(appContext.appState)
        && kafka.Producer() == old(kafka.Producer())
        && pipeline.processor.metaQueue == old(pipeline.processor.metaQueue)
      ensures event.action == Events.START_MODULES && !old(appContext.runState) ==>
        && c == Returned(true) && kafka.tasks == old(kafka.tasks)
        && pipeline.processor.metaQueue == old(pipeline.processor.metaQueue)
        && pipeline.processor.displayQueues == old(pipeline.processor.displayQueues)
        && pipeline.busStruct.State() == old(pipeline.busStruct.State())
      ensures event.action == Events.START_MODULES && old(appContext.runState) ==>
        && kafka.tasks == old(kafka.tasks) + [Messaging.ValidateConnection]
        && (c == Fatal <==> !(foreign.pipelineMade && GstPipeline.IsSourceType(pipeline.configs.srcType) && foreign.graphBuilt))
        && (c != Fatal ==> c == Returned(true))
      ensures event.action == Events.START_MODULES ==> appContext.runState == old(appContext.runState) && appContext.appState == old(appContext.appState)
      ensures event.action == Events.STOP_MODULES && !old(kafka.producerRun) ==>
        c == Returned(true) && appContext.appState == SHUT_DOWN && kafka.Producer() == old(kafka.Producer())
      ensures event.action == Events.STOP_MODULES && old(kafka.producerRun) ==>
        && kafka.Producer() == Messaging.StopFrom(old(kafka.Producer()), foreign.stopIntervals).0
        && (c == StillStopping <==> !Messaging.StopFrom(old(kafka.Producer()), foreign.stopIntervals).1)
        && (c != StillStopping ==> c == Returned(true) && appContext.appState == SHUT_DOWN)
      ensures event.action == Events.STOP_MODULES ==> appContext.runState == old(appContext.runState)
      ensures event.action == Events.KAFKA_PRODUCE_PAYLOAD ==>
        && pipeline.processor.metaQueue == old(pipeline.processor.metaQueue)[1..]
        && (c == Threw <==> IsEmpty(old(pipeline.processor.metaQueue)[0]))
        && (c != Threw ==> c == Returned(true) && kafka.producerQ == old(kafka.producerQ) + [old(pipeline.processor.metaQueue)[0]])
      ensures event.action !in {Events.CONFIGURE_MODULES, Events.START_MODULES, Events.STOP_MODULES, Events.KAFKA_PRODUCE_PAYLOAD} ==>
        && c == Returned(old(event.Released()))
        && event.GetFlags() == old(event.GetFlags())
        && appContext.runState == old(appContext.runState) && appContext.appState == old(appContext.appState)
        && kafka.Producer() == old(kafka.Producer())
        && pipeline.processor.metaQueue == old(pipeline.processor.metaQueue)
    {
      var action := event.action;
      if action == Events.CONFIGURE_MODULES {
        Configure(event);
      } else if action == Events.START_MODULES {
        var fatal := StartModules(event, foreign.pipelineMade, foreign.graphBuilt);
        if fatal {
          return Fatal;
        }
      } else if action == Events.STOP_MODULES {
        var returned := StopModules(event, foreign.stopIntervals);
        if !returned {
          return StillStopping;
        }
      } else if action == Events.KAFKA_PRODUCE_PAYLOAD {
        var threw := ProducePayload(event);
        if threw {
          return Threw;
        }
      }
      c := Returned(event.completed && !event.owned);
    }

    /**
     * The publish notifications of a batch, one after the other: each one
     * forwards the front record of the meta queue to the producer queue.
     */
    method ForwardPublished(events: seq<Events.EventBase>)
      requires forall e :: e in events ==> e.cls == Events.KafkaEventClass && e.action == Events.KAFKA_PRODUCE_PAYLOAD
      requires |events| <= |pipeline.processor.metaQueue|
      requires forall j :: 0 <= j < |events| ==> !IsEmpty(pipeline.processor.metaQueue[j])
      modifies (set e | e in events), pipeline.processor`metaQueue, kafka`producerQ
      ensures pipeline.processor.metaQueue == old(pipeline.processor.metaQueue)[|events|..]
      ensures kafka.producerQ == old(kafka.producerQ) + old(pipeline.processor.metaQueue)[..|events|]
      ensures forall e :: e in events ==> e.Released()
    {
      ghost var meta := pipeline.processor.metaQueue;
      var i := 0;
      while i < |events|
        invariant 0 <= i <= |events|
        invariant pipeline.processor.metaQueue == meta[i..]
        invariant kafka.producerQ == old(kafka.producerQ) + meta[..i]
        invariant forall j :: 0 <= j < i ==> events[j].Released()
        invariant forall e :: e in events ==> e.cls == Events.KafkaEventClass && e.action == Events.KAFKA_PRODUCE_PAYLOAD
      {
        assert meta[i..][0] == meta[i] && meta[i..][1..] == meta[i + 1..];
        assert meta[..i + 1] == meta[..i] + [meta[i]];
        var threw := ProducePayload(events[i]);
        i := i + 1;
      }
    }

    /**
     * One probe callback followed by the notifications it raised: each
     * published record ends up on the producer queue, as if it had been
     * forwarded straight after it was queued.
     */
    method ProbeAndForward(capsOk: bool, mapOk: bool, width: int, height: int, frames: seq<GstProcessing.FrameMeta>, stamps: seq<GstProcessing.FrameStamp>)
      returns (outcome: GstProcessing.ProbeOutcome)
      requires |stamps| == |frames|
      requires pipeline.processor.configs.displayDetections ==>
        forall i :: 0 <= i < |frames| && frames[i].objects != [] ==> frames[i].sourceId < |pipeline.processor.displayQueues|
      requires forall j :: 0 <= j < |pipeline.processor.metaQueue| ==> !IsEmpty(pipeline.processor.metaQueue[j])
      modifies pipeline.processor`metaQueue, pipeline.processor`displayQueues, kafka`producerQ
      ensures capsOk && mapOk && pipeline.processor.configs.publish ==>
        var records := GstProcessing.Records(GstProcessing.Detections(pipeline.processor.configs, width, height, frames, stamps));
        (pipeline.processor.metaQueue, kafka.producerQ) == Interleaved(old(pipeline.processor.metaQueue), old(kafka.producerQ), records)
      ensures !(capsOk && mapOk && pipeline.processor.configs.publish) ==>
        pipeline.processor.metaQueue == old(pipeline.processor.metaQueue) && kafka.producerQ == old(kafka.producerQ)
    {
      ghost var before := GstProcessing.Queues(pipeline.processor.metaQueue, pipeline.processor.displayQueues);
      var events;
      outcome, events := pipeline.processor.ProbeCallback(capsOk, mapOk, width, height, frames, stamps);
      ghost var ds := GstProcessing.Detections(pipeline.processor.configs, width, height, frames, stamps);
      if capsOk && mapOk {
        if pipeline.processor.configs.displayDetections {
          GstProcessing.DetectionStreams(pipeline.processor.configs, width, height, frames, stamps, |before.display|);
        }
        GstProcessing.FanOutAllQueues(pipeline.processor.configs, before, ds);
        GstProcessing.DetectionRecordsNonEmpty(pipeline.processor.configs, width, height, frames, stamps);
        if pipeline.processor.configs.publish {
          assert pipeline.processor.metaQueue == before.meta + GstProcessing.Records(ds);
          assert |events| == |GstProcessing.Records(ds)|;
          forall j | 0 <= j < |events|
            ensures !IsEmpty(pipeline.processor.metaQueue[j])
          {
            if j >= |before.meta| {
              assert pipeline.processor.metaQueue[j] == GstProcessing.Records(ds)[j - |before.meta|];
            }
          }
          ForwardPublished(events);
          InterleavedIsBatched(before.meta, old(kafka.producerQ), GstProcessing.Records(ds));
        }
      }
    }
  }
}
