# deepstream-IVA core, modelled in Dafny

deepstream-IVA is an intelligent video analytics application. A GStreamer / DeepStream pipeline runs object detection on video
streams. A processing module turns each frame's detections into JSON records. Those records are
queued for a Kafka producer and, per stream, for an on-screen overlay. A mediator handles
every event between the modules: it configures them from `config.json`, starts them, stops them
and forwards records to the producer.

This project models the sequential logic of that core:

- the event objects and their flags;
- the mediator's `notify` dispatch and its clean-up rule;
- the application context and the application lifecycle: configure, start, LIVE, wait;
- the processing module's configuration, queues, per-frame records, fan-out, overlay pop and overlay plan;
- the Kafka broker's configuration, serialiser, producer queue and producer loop, connection gating and `stop`;
- the pipeline's configuration validator, set-up dispatch, callback decision table, bus handler and pad-link messages;
- the YAML pipeline helpers (`isInt`, `isFloat`, `key=value` splitting, value classification, linking decisions);
- the error texts.

Objects whose fields the C++ updates are Dafny classes. Their methods are proved against pure
specification functions, and lemmas state the properties of those functions.

Modules:

| module | file | models |
|---|---|---|
| `Events` | events.dfy | `EventBase` and its derived events (Event.h, Event.cpp) |
| `EventMediator` | mediator.dfy | `Mediator::notify` (Mediator.cpp) |
| `AppContext` | app_context.dfy | `ApplicationContext` (ApplicationContext.h, .cpp) |
| `AppLifecycle` | application.dfy | `Application` (Application.cpp) |
| `GstProcessing` | processing.dfy | `Processing` (Processing.cpp) |
| `Messaging` | kafka_broker.dfy | `KafkaBroker` and `njson_to_string` (KafkaBroker.cpp) |
| `GstPipeline` | pipeline.dfy | `Pipeline` (Pipeline.cpp) |
| `PipelineUtils` | pipeline_utils.dfy | `get_link_status`, `bus_call`, `BusStruct`, the JSON list checks (pipelineUtils.hpp) |
| `YamlParser` | yaml_parser.dfy | yamlParser.hpp, and the `key=value` splitting of Pipeline.cpp's YAML builder |
| `Errors` | errors.dfy | `strerror`, `BaseError` (errors.hpp) |
| `Json`, `Strings`, `Numeric`, `Wrappers` | json.dfy, strings.dfy, numeric.dfy, wrappers.dfy | nlohmann JSON values, `std::to_string`, the 32-bit casts, `Option` |

## Model

| member | source | states |
|---|---|---|
| Events.ModuleToStr | iva/modules/core/event/Event.cpp:12-16 | printing a module succeeds exactly for the seven enumerators (0-5, 9999); any other value makes `map::at` throw |
| Events.ActionToStr | iva/modules/core/event/Event.cpp:24-28 | printing an action succeeds exactly for the seven enumerators; any other value throws |
| Events.PrintedNamesIdentify | iva/modules/core/event/Event.h:39-85 | the name tables are injective: a printed module or action name determines its value |
| Events.EndFlags | iva/modules/core/event/Event.cpp:43-47 | after `end()` the event is not owned and is completed; accepted is untouched |
| Events.EndIdempotent | iva/modules/core/event/Event.cpp:43-47 | calling `end()` twice leaves the same flags as calling it once |
| Events.EventBase.constructor | iva/modules/core/event/Event.cpp:30 | a default event has type, action, source and target 0, and all three flags false (Event.h:165-173) |
| Events.EventBase.OfType | iva/modules/core/event/Event.cpp:32 | `EventBase(type)` stores the type; everything else is at its default |
| Events.EventBase.Routed | iva/modules/core/event/Event.cpp:59-65 | `EventBase(action, type, src, dst)` stores all four values with the flags false; it is also the inherited constructor of the derived events |
| Events.EventBase.Application | iva/modules/core/event/Event.cpp:78-85 | `ApplicationEvent(action, src)` sets type APPLICATION and the action; the source is set only when src > 0, otherwise it stays 0 |
| Events.EventBase.KafkaToProducer | iva/modules/core/event/Event.cpp:98-106 | type KAFKA, target MODULE_KAFKA, the requested uuid and the source are stored |
| Events.EventBase.KafkaFromConsumer | iva/modules/core/event/Event.cpp:112-118 | type KAFKA and target MODULE_PIPELINE; the source stays 0 |
| Events.EventBase.Pipeline | iva/modules/core/event/Event.cpp:131-136 | type PIPELINE and target MODULE_PIPELINE; the uuid and the source argument are dropped, so the source stays 0 |
| Events.EventBase.Accept | iva/modules/core/event/Event.h:125 | `accept()` sets accepted and leaves owned and completed alone |
| Events.EventBase.Ignore | iva/modules/core/event/Event.h:127 | `ignore()` clears accepted and leaves the other flags alone |
| Events.EventBase.SetAccepted | iva/modules/core/event/Event.h:129-131 | after `set_accepted(b)`, `accepted()` is b and the other flags are unchanged |
| Events.EventBase.Own | iva/modules/core/event/Event.h:135 | `own()` sets owned and touches neither accepted nor completed |
| Events.EventBase.Free | iva/modules/core/event/Event.h:137 | `free()` clears owned and touches neither accepted nor completed |
| Events.EventBase.SetOwned | iva/modules/core/event/Event.h:139-143 | after `set_owned(b)`, `owned()` is b and completed is unchanged |
| Events.EventBase.End | iva/modules/core/event/Event.cpp:43-47 | `end()` leaves the event released (completed and not owned), whatever its flags were |
| EventMediator.UnloadedConfigsRefused | iva/modules/core/event/Mediator.cpp:69-75 | a context that holds no document (null) is refused by the checks, so the run flag stays false after a failed load |
| EventMediator.InterleavedIsBatched | iva/modules/gst/processing/Processing.cpp:223-227 | pushing each record and forwarding the front right after it ends with the same producer and meta queues as pushing the whole batch, then forwarding as many records |
| EventMediator.Mediator.constructor | iva/modules/core/event/Mediator.cpp:21-36 | the mediator holds the context, the broker and the pipeline it is given |
| EventMediator.Mediator.Configure | iva/modules/core/event/Mediator.cpp:62-78 | sections go pipeline, then processing, then messaging; the calls short-circuit at the first refusal; `run_state` is true iff all three accept; the event ends released |
| EventMediator.Mediator.StartModules | iva/modules/core/event/Mediator.cpp:79-96 | with `run_state`, the broker's connection check is scheduled before the pipeline starts, and an unusable pipeline is fatal; without it nothing changes; the event ends released |
| EventMediator.Mediator.StopModules | iva/modules/core/event/Mediator.cpp:97-117 | `kafka.stop` runs only while the producer runs; once it returns the state is SHUT_DOWN and the event is released; a second STOP skips the broker |
| EventMediator.Mediator.ProducePayload | iva/modules/core/event/Mediator.cpp:118-128 | exactly the front of the meta queue moves to the back of the producer queue; an empty front record throws |
| EventMediator.Mediator.Notify | iva/modules/core/event/Mediator.cpp:55-134 | dispatch on the action to the four handlers; each handled action leaves the event released; a START without `run_state` and a STOP without a running producer leave the broker, the queues and the bus data unchanged; any other action changes nothing, so the event keeps the flags it had |
| EventMediator.Mediator.ForwardPublished | iva/modules/core/event/Mediator.cpp:118-128 | notifying n publish events moves the first n records of the meta queue, in order, to the producer queue and releases every event |
| EventMediator.Mediator.ProbeAndForward | iva/modules/gst/processing/Processing.cpp:161-252 | a probe callback followed by the notifications it raised leaves the queues as if each record had been forwarded right after it was queued |
| AppContext.ModuleSectionsPresent | iva/modules/application/ApplicationContext.cpp:26-40 | a document that passes the load checks is an object holding the three sections |
| AppContext.EmptyCheckSubsumed | iva/modules/application/ApplicationContext.cpp:26-37 | the empty-document check is implied by the section checks after it |
| AppContext.ApplicationContext.constructor | iva/modules/application/ApplicationContext.h:65-66 | `run_state` starts false and `app_state` starts NO_APP_STATE; no document is loaded |
| AppContext.ApplicationContext.KillApp | iva/modules/application/ApplicationContext.h:58 | `kill_app()` sets SHUT_DOWN from any state and changes nothing else |
| AppContext.ApplicationContext.LoadModuleConfigs | iva/modules/application/ApplicationContext.cpp:26-40 | the load succeeds iff the document is non-empty and holds messaging, pipeline and processing; only then is it stored, verbatim |
| AppContext.ApplicationContext.GetConfigs | iva/modules/application/ApplicationContext.cpp:49-70 | PIPELINE gives the "pipeline" section, PROCESSING "processing" and KAFKA "messaging"; any other type throws |
| AppContext.UnloadedSectionsAreNull | iva/modules/application/ApplicationContext.cpp:49-70 | before a successful load every section reads as null |
| AppLifecycle.FirstNotLive | iva/modules/application/Application.cpp:53-55 | the first state read after a sleep that is not LIVE, with every earlier read LIVE; None iff every read is LIVE |
| AppLifecycle.FirstNotLiveUnique | iva/modules/application/Application.cpp:53-55 | a non-LIVE read preceded only by LIVE reads is the one the loop stops at |
| AppLifecycle.ShutDownEndsWait | iva/modules/application/Application.cpp:53-55 | once a STOP notification has set SHUT_DOWN, the wait ends at that read or earlier |
| AppLifecycle.NewApplicationEvent | iva/modules/application/Application.cpp:66 | `ApplicationEvent(action, MODULE_APPLICATION)` is built by the inherited constructor: type 1, the action, source 0 |
| AppLifecycle.Application.constructor | iva/modules/application/Application.cpp:8 | the application starts with no components |
| AppLifecycle.Application.SetUp | iva/modules/application/Application.cpp:22-40 | the components are created and wired to the mediator; the load result is ignored; configuration is dispatched anyway, and the modules run iff the stored document passes all three checks |
| AppLifecycle.Application.DistributeModuleConfigs | iva/modules/application/Application.cpp:63-68 | one CONFIGURE_MODULES notification: `run_state` becomes the verdict of the three checks; the state and the queues are untouched |
| AppLifecycle.Application.StartModules | iva/modules/application/Application.cpp:78-84 | one START_MODULES notification: the broker is started and then the pipeline, or nothing when `run_state` is false |
| AppLifecycle.Application.StopModules | iva/modules/application/Application.cpp:70-76 | one STOP_MODULES notification: the state becomes SHUT_DOWN once the broker has drained |
| AppLifecycle.Application.WaitWhileLive | iva/modules/application/Application.cpp:53-55 | the wait loop reads the state until it is not LIVE and stops at the first such read; it does not loop when the state is not LIVE to begin with |
| AppLifecycle.Application.Start | iva/modules/application/Application.cpp:45-56 | set up, then START; LIVE iff `run_state`; then wait. With a refused configuration nothing starts and the state stays NO_APP_STATE |
| GstProcessing.SettingsOf | iva/modules/gst/processing/Processing.cpp:66-85 | the settings stored from an accepted section: topic, device_id, model and model_type as text, publish, save and display_detections as flags, and bbox_line_thickness, min_confidence_to_display and font_size narrowed to 32-bit `int` |
| GstProcessing.AcceptedConfIsObject | iva/modules/gst/processing/Processing.cpp:26-65 | an accepted section is a non-empty object, so an empty conf is refused |
| GstProcessing.Processing.constructor | iva/modules/gst/processing/Processing.cpp:9-13 | a new processor has no settings yet and empty queues |
| GstProcessing.Processing.SetConfigs | iva/modules/gst/processing/Processing.cpp:22-88 | accepted iff topic, device_id, model and model_type are strings, publish, save and display_detections booleans, and the three sizes integers; a refusal leaves the settings unchanged |
| GstProcessing.Processing.SetUp | iva/modules/gst/processing/Processing.cpp:94-110 | after `set_up(n)` there are exactly n display queues, all empty, and the meta queue is empty |
| GstProcessing.Entries | iva/modules/gst/processing/Processing.cpp:180-217 | one inference entry per object, in metadata-list order |
| GstProcessing.Processing.BuildEntries | iva/modules/gst/processing/Processing.cpp:180-217 | the object loop builds exactly those entries |
| GstProcessing.InferenceEntry | iva/modules/gst/processing/Processing.cpp:205-215 | an entry is an object of five members with pairwise distinct keys: box, camera id, confidence, label and tracking id |
| GstProcessing.BoxRecordFields | iva/modules/gst/processing/Processing.cpp:205-211 | x_min = left, y_min = top, x_max = left + width, y_max = top + height, each truncated to `int` |
| GstProcessing.InferenceEntryFields | iva/modules/gst/processing/Processing.cpp:205-215 | reading an entry back gives the box, the confidence as the truncation of confidence·100, the label, the 32-bit tracking id and, as camera_id, the 32-bit source id of the frame |
| GstProcessing.FrameDetections | iva/modules/gst/processing/Processing.cpp:161-250 | a frame with no objects yields no record; a frame with objects yields exactly one, for its own stream |
| GstProcessing.DetectionCount | iva/modules/gst/processing/Processing.cpp:161-250 | a batch yields exactly one record per frame that has objects |
| GstProcessing.OtherStreamsGetNothing | iva/modules/gst/processing/Processing.cpp:238-249 | a stream none of whose frames are in the batch gets no record |
| GstProcessing.DetectionRecordsNonEmpty | iva/modules/gst/processing/Processing.cpp:163-176 | every queued record is a non-empty object, so `get_meta_queue` does not throw on it |
| GstProcessing.DetectionStreams | iva/modules/gst/processing/Processing.cpp:244 | every record is for the stream of a frame with objects, so the display-queue index stays in range when those streams do |
| GstProcessing.FanOut | iva/modules/gst/processing/Processing.cpp:223-249 | one record goes to the meta queue when publishing and to its stream's queue when displaying; the number of streams is kept |
| GstProcessing.FanOutAllAppend | iva/modules/gst/processing/Processing.cpp:161-252 | fanning out two batches in turn equals fanning out their concatenation |
| GstProcessing.FanOutAllQueues | iva/modules/gst/processing/Processing.cpp:223-249 | after a batch, the meta queue has gained every record when publishing, and each stream's queue exactly that stream's records when displaying, in order; other streams are unchanged |
| GstProcessing.Processing.FanOutRecord | iva/modules/gst/processing/Processing.cpp:223-249 | the fan-out of one record, with one publish event when publishing |
| GstProcessing.Processing.HandleFrame | iva/modules/gst/processing/Processing.cpp:161-250 | one pass of the frame loop is the fan-out of that frame's records |
| GstProcessing.Processing.ProcessFrames | iva/modules/gst/processing/Processing.cpp:161-252 | the frame loop leaves the queues as the fan-out of the batch's records, with one publish event per record when publishing |
| GstProcessing.Processing.ProbeCallback | iva/modules/gst/processing/Processing.cpp:121-255 | unreadable caps abort, an unmappable buffer returns false with nothing queued, otherwise the batch is fanned out and true is returned |
| GstProcessing.Processing.CreateKafkaPublishEvent | iva/modules/gst/processing/Processing.cpp:478-485 | the publish event is a KafkaEvent asking for KAFKA_PRODUCE_PAYLOAD, built by the inherited constructor, with source GST_PROCESSOR |
| GstProcessing.Processing.AddMetaQueue | iva/modules/gst/processing/Processing.cpp:426-432 | one record is pushed at the back of the meta queue |
| GstProcessing.Processing.CheckMetaQueue | iva/modules/gst/processing/Processing.cpp:439-448 | true iff the meta queue is non-empty |
| GstProcessing.Processing.GetMetaQueue | iva/modules/gst/processing/Processing.cpp:454-470 | pops exactly the front record; an empty record throws after the pop |
| GstProcessing.Caption | iva/modules/gst/processing/Processing.cpp:385-386 | the caption is label + "[" + tracking_id + "]" + " % " + confidence |
| GstProcessing.EntryOverlay | iva/modules/gst/processing/Processing.cpp:367-412 | an entry without a string label, or without an integer confidence, tracking_id or bbox corner, stops the drawing; a readable one draws at most one box, and one exactly when its confidence passes the threshold |
| GstProcessing.DrawPlan | iva/modules/gst/processing/Processing.cpp:358-416 | a payload without "inference" stops the process; an empty inference draws nothing; an array draws at most one box per entry |
| GstProcessing.AsInt | iva/modules/gst/processing/Processing.cpp:374-380 | `get<int>()` throws exactly on a null, a string, an array or an object; an integer is narrowed to 32 bits (the identity in range) and a boolean reads as 1 or 0 |
| GstProcessing.EntryOverlayOfFields | iva/modules/gst/processing/Processing.cpp:367-412 | an entry with its fields is drawn, with its box and caption, iff confidence > min_confidence_to_display (strictly) |
| GstProcessing.EntryOverlayOfObject | iva/modules/gst/processing/Processing.cpp:205-215 | reading back an entry the probe built gives that object's overlay, so nothing the probe queues makes the overlay stop the process |
| GstProcessing.EntriesOverlaysOfObjects | iva/modules/gst/processing/Processing.cpp:367-412 | the overlays of a record's entries are the objects' overlays, in order |
| GstProcessing.OverlaysOfFrameRecord | iva/modules/gst/processing/Processing.cpp:358-416 | drawing a record the probe built draws exactly the boxes of that frame's objects above the threshold |
| GstProcessing.EntriesOverlaysFailurePersists | iva/modules/gst/processing/Processing.cpp:381-383 | one unreadable entry stops the whole drawing |
| GstProcessing.Processing.WriteDetectionsToImage | iva/modules/gst/processing/Processing.cpp:358-416 | the loop draws exactly what the overlay plan says, or stops the process when the plan does |
| GstProcessing.StreamIndex | iva/modules/gst/processing/Processing.cpp:276 | the stream index is the digit value of the bin name's last character; a non-digit makes `stoi` throw |
| GstProcessing.SinkBinStreamIndex | iva/modules/gst/pipeline/Pipeline.cpp:329 | for the bin "sinkBin"+b the recovered index is b mod 10 |
| GstProcessing.SinkBinIndexRecovered | iva/modules/gst/pipeline/Pipeline.cpp:329 | the index is recovered exactly when b < 10 |
| GstProcessing.Processing.OsdCallback | iva/modules/gst/processing/Processing.cpp:258-337 | an empty stream queue returns at once with nothing changed; otherwise exactly the front record is popped and drawn; an empty record, an unknown format or a bad record stops the process |
| Messaging.NjsonToString | iva/modules/messaging/KafkaBroker.cpp:14-32 | the loop builds the serialisation: "{", then ` "key":value,` per member, with the last comma replaced by "}" |
| Messaging.Serialized | iva/modules/messaging/KafkaBroker.cpp:14-32 | for a non-empty object the text is "{", each member followed by a comma, with the last comma replaced by "}" |
| Messaging.SerializedShape | iva/modules/messaging/KafkaBroker.cpp:26-31 | the text always ends in "}", and it is exactly "}" for an empty object |
| Messaging.SerializedSingle | iva/modules/messaging/KafkaBroker.cpp:18-30 | one member serialises to `{ "key":value}` |
| Json.EscapeRoundTrip | iva/modules/messaging/KafkaBroker.cpp:23 | a string value is printed with JSON escapes that read back as the original text |
| Json.Dump | iva/modules/messaging/KafkaBroker.cpp:23 | the printed value is never empty; a string is quoted, and its escaped text reads back as the string; arrays and objects are bracketed |
| Messaging.AcceptedKafkaConfIsObject | iva/modules/messaging/KafkaBroker.cpp:68-101 | an accepted section is a non-empty object, so an empty conf is refused |
| Messaging.KafkaBroker.constructor | iva/modules/messaging/KafkaBroker.cpp:56-60 | not connected, producer not running, empty queue; the enable flag starts false (a model choice, since the header shown declares no `_producer_enable`) |
| Messaging.KafkaBroker.GetRunState | iva/modules/messaging/KafkaBroker.cpp:259 | the run state is the producer's run flag |
| Messaging.KafkaBroker.SetConfigs | iva/modules/messaging/KafkaBroker.cpp:68-101 | accepted iff topic and kafka_server_ip are strings and enable a boolean; the topic stored is always "test", with the address and the enable flag; a refusal changes nothing |
| Messaging.KafkaBroker.Publish | iva/modules/messaging/KafkaBroker.cpp:143-149 | exactly one payload is appended at the back of the producer queue |
| Messaging.KafkaBroker.Start | iva/modules/messaging/KafkaBroker.cpp:223-229 | the connection check is scheduled |
| Messaging.FirstSuccess | iva/modules/messaging/KafkaBroker.cpp:112-129 | the first topic listing that succeeds, with every earlier one failed |
| Messaging.KafkaBroker.ValidateBrokerConnection | iva/modules/messaging/KafkaBroker.cpp:106-137 | disabled: nothing happens; otherwise it retries until a listing succeeds, then it is connected and launches the producer only if the producer is not already running |
| Messaging.ProducerStepPops | iva/modules/messaging/KafkaBroker.cpp:168-188 | an empty queue changes nothing; otherwise the front is removed, and a payload without "topic" is dropped unsent |
| Messaging.ProducerStepSends | iva/modules/messaging/KafkaBroker.cpp:190-207 | a payload with a string topic is sent to that topic, serialised; nothing else is sent |
| Messaging.ProducerStepFailure | iva/modules/messaging/KafkaBroker.cpp:209-215 | a send that throws out of `publisher.send` reaches the catch, which stops the producer and schedules the connection check again |
| Messaging.ProducerStepDelivers | iva/modules/messaging/KafkaBroker.cpp:178-207 | a deliverable front payload is popped and sent, and nothing else changes |
| Messaging.KafkaBroker.ProducerStep | iva/modules/messaging/KafkaBroker.cpp:168-215 | one pass of the producer loop |
| Messaging.ProducerStepOf | iva/modules/messaging/KafkaBroker.cpp:168-215 | one pass sends at most one record and never unsends one, invents no payload, never restarts a stopped producer, and schedules the connection check exactly when it stops the producer |
| Messaging.KafkaBroker.PollProducerLoop | iva/modules/messaging/KafkaBroker.cpp:157-218 | `_poll_producer` sets the run flag and then makes passes while it stays set |
| Messaging.StoppedProducerIdle | iva/modules/messaging/KafkaBroker.cpp:168 | a stopped producer makes no further progress |
| Messaging.ProducerDrains | iva/modules/messaging/KafkaBroker.cpp:168-207 | with every send succeeding, the producer empties its queue and sends every payload in order |
| Messaging.KafkaBroker.Stop | iva/modules/messaging/KafkaBroker.cpp:236-252 | sleep and check the queue until it is empty, then clear the run flag |
| Messaging.StopFrom | iva/modules/messaging/KafkaBroker.cpp:236-252 | waiting in `stop` never takes back a sent record, and when it has not returned after some sleep the queue still holds a payload |
| Messaging.StopReturnsDrained | iva/modules/messaging/KafkaBroker.cpp:241-251 | `stop` returns only with an empty producer queue, and then the producer is not running |
| Messaging.StopBlocksWithoutProducer | iva/modules/messaging/KafkaBroker.cpp:241-250 | with the producer stopped and a payload waiting, `stop` never returns |
| Messaging.StopAfterDelivery | iva/modules/messaging/KafkaBroker.cpp:236-252 | when the producer delivers the whole queue in the first sleep, `stop` returns after it with everything sent |
| GstPipeline.ConfigsOf | iva/modules/gst/pipeline/Pipeline.cpp:109-124 | the stored configs: source_count = number of sources, live_source iff src_type is "rtsp", sizes read as 32-bit `int` |
| GstPipeline.PipelineConfOk | iva/modules/gst/pipeline/Pipeline.cpp:54-248 | an accepted configuration has source and sink arrays of non-empty, pairwise distinct strings |
| GstPipeline.StoredConfigsShape | iva/modules/gst/pipeline/Pipeline.cpp:109-124 | once the types pass, the stored configs keep the sources list, its size and the live flag |
| GstPipeline.AcceptedConfShape | iva/modules/gst/pipeline/Pipeline.cpp:155-187 | an accepted conf has src_type in {file, rtsp}, sink_type in {display, file, rtmp}, at least one source, a sink unless displaying, and non-zero sizes |
| GstPipeline.WrappedHeightRefused | iva/modules/gst/pipeline/Pipeline.cpp:117-187 | a height of 2^32 reads as 0 through `get<int>()` and is refused |
| GstPipeline.CheckSources | iva/modules/gst/pipeline/Pipeline.cpp:190-214 | the source loop: every source non-empty, file sources ending in ".mp4", rtsp sources starting with "rtsp://", and all distinct |
| GstPipeline.Pipeline.CheckSinks | iva/modules/gst/pipeline/Pipeline.cpp:217-245 | the sink loop: every sink non-empty, file sinks ending in ".mp4", the rtmp prefix checked on `sources[i]`, and all distinct |
| GstPipeline.Pipeline.SetConfigs | iva/modules/gst/pipeline/Pipeline.cpp:54-248 | refused for an empty conf or a wrongly typed field, with nothing stored; once the types pass the configs are stored even if a later check fails; the verdict is the conjunction of all the checks |
| GstPipeline.RtspToRtmpRefused | iva/modules/gst/pipeline/Pipeline.cpp:234-240 | as written, an rtsp source with an rtmp sink is always refused |
| GstPipeline.IntendedAgreesWithoutRtmp | iva/modules/gst/pipeline/Pipeline.cpp:217-245 | the corrected validator agrees with the written one whenever the sink type is not rtmp |
| GstPipeline.IntendedAcceptsRtspToRtmp | iva/modules/gst/pipeline/Pipeline.cpp:234-240 | the corrected validator accepts an rtsp camera streamed to an rtmp sink, which the written one refuses |
| GstPipeline.Pipeline.constructor | iva/modules/gst/pipeline/Pipeline.cpp:11-15 | a new pipeline owns a fresh processor and the default bus data |
| GstPipeline.Pipeline.SetUp | iva/modules/gst/pipeline/Pipeline.cpp:23-47 | the processor gets one queue per source; a pipeline that cannot be made fails first; then only "file" and "rtsp" build a graph, and any other type fails |
| GstPipeline.Pipeline.Start | iva/modules/gst/pipeline/Pipeline.cpp:508-516 | a failed set-up is fatal |
| GstPipeline.Pipeline.PipelineFinished | iva/modules/gst/pipeline/Pipeline.cpp:536-543 | the STOP event is built by the inherited constructor: action STOP_MODULES, type MODULE_PIPELINE, no source |
| GstPipeline.SetCallbacks | iva/modules/gst/pipeline/Pipeline.cpp:641-706 | an element whose alias does not read as text fails; an element without a callback needs none and succeeds |
| GstPipeline.CallbackSucceedsOnlyIfKnown | iva/modules/gst/pipeline/Pipeline.cpp:651-704 | a callback is accepted only as a probe with a pad and function_name probe_callback or osd_callback, or a signal with element_signal and function_name on_pad_added |
| GstPipeline.UnknownCallbackFails | iva/modules/gst/pipeline/Pipeline.cpp:700-703 | any other callback type fails |
| PipelineUtils.GetLinkStatus | iva/modules/gst/pipeline/pipelineUtils.hpp:43-70 | codes 0, -1, ..., -6 have their fixed messages, and every other code the "doesn't recognize" text |
| PipelineUtils.LinkStatusIdentifies | iva/modules/gst/pipeline/pipelineUtils.hpp:43-70 | the known messages are distinct and differ from the fallback, so a message identifies its code |
| PipelineUtils.BusStep | iva/modules/gst/pipeline/pipelineUtils.hpp:84-124 | one message: the loop is told to quit iff it already was or the message is an end of stream or an error; the counter is reset iff the message is an element or new-clock message; the maximum is kept |
| PipelineUtils.BusQuitsOnEnd | iva/modules/gst/pipeline/pipelineUtils.hpp:94-109 | the main loop has been told to quit exactly when an end of stream or an error has arrived (or it already had been told) |
| PipelineUtils.BusCounterReset | iva/modules/gst/pipeline/pipelineUtils.hpp:110-121 | an element message falls through into new-clock; both reset the timeout counter; other messages leave it alone; the maximum never changes |
| PipelineUtils.BusStruct.constructor | iva/modules/gst/pipeline/pipelineUtils.hpp:32-36 | the defaults are counter 0 and maximum 5 |
| PipelineUtils.BusStruct.SetForPipeline | iva/modules/gst/pipeline/Pipeline.cpp:264 | the pipeline overwrites its bus data with counter 0, maximum 50 and a loop not told to quit |
| PipelineUtils.BusStruct.BusCall | iva/modules/gst/pipeline/pipelineUtils.hpp:84-124 | one message is handled as the bus step says, and `bus_call` always returns true |
| YamlParser.IsInt | iva/modules/gst/pipeline/yamlParser.hpp:27-31 | `isInt` is the pattern `^[0-9]+$`, and every string it accepts is accepted by `isFloat` too |
| YamlParser.IsFloat | iva/modules/gst/pipeline/yamlParser.hpp:16-20 | every string `isFloat` accepts is non-empty and ends in a digit |
| YamlParser.FloatScanMatchesPattern | iva/modules/gst/pipeline/yamlParser.hpp:16-20 | the scanner accepts exactly the strings the regular expression `[-+]?[0-9]*\.?[0-9]+([eE][-+]?[0-9]+)?` matches |
| YamlParser.FloatPointPlacement | iva/modules/gst/pipeline/yamlParser.hpp:16-20 | ".5" is a float and "1." is not |
| YamlParser.AsString | iva/modules/gst/pipeline/yamlParser.hpp:67 | `as<std::string>()` reads a scalar or a null and throws on a missing node, a sequence or a map |
| YamlParser.IndexOf | iva/modules/gst/pipeline/yamlParser.hpp:76 | the first occurrence of the delimiter |
| YamlParser.SplitProperty | iva/modules/gst/pipeline/yamlParser.hpp:74-77 | the key never holds '='; with an '=' in the text, the key is the text before the first '=' and the value is a newline-free prefix of the text after it |
| YamlParser.SplitPropertyRoundTrip | iva/modules/gst/pipeline/yamlParser.hpp:74-77 | "k=v" splits at the first '=' back into k and v, even when v contains '=' |
| YamlParser.SplitPropertyNoEquals | iva/modules/gst/pipeline/yamlParser.hpp:74-77 | without '=' the key is the whole text and the value is empty |
| YamlParser.Classify | iva/modules/gst/pipeline/yamlParser.hpp:80-103 | int, caps, "true", "false", float, string, tried in that order: each class holds exactly when the earlier tests fail and its own test passes, with the integer's value, the boolean's truth and the text of the rest; an integer beyond the 32-bit range makes `stoi` throw |
| YamlParser.NumericCapsIsInt | iva/modules/gst/pipeline/yamlParser.hpp:80-87 | "caps=123" is set as the integer 123, since the integer test is tried first |
| YamlParser.BooleanWords | iva/modules/gst/pipeline/yamlParser.hpp:88-95 | for any key but "caps", "true" and "false" are set as the booleans true and false, and no other value is set as a boolean |
| YamlParser.PropertyOf | iva/modules/gst/pipeline/yamlParser.hpp:74-103 | the property set for one entry, under the key the split gives |
| YamlParser.AllSettable | iva/modules/gst/pipeline/yamlParser.hpp:62-106 | when every entry reads as text and classifies, all are applied and the result is true |
| YamlParser.StopsAtFirstNonString | iva/modules/gst/pipeline/yamlParser.hpp:64-72 | the result is false at the first entry that is not text, after applying exactly the entries before it |
| YamlParser.SetElementProperties | iva/modules/gst/pipeline/yamlParser.hpp:62-106 | the loop applies the entries in order and returns as the specification says |
| YamlParser.SplitSourceProperties | iva/modules/gst/pipeline/Pipeline.cpp:562-583 | the source property list splits into (key, value) pairs, one per entry, or fails when an entry does not read as a string |
| YamlParser.SetLinks | iva/modules/gst/pipeline/yamlParser.hpp:116-147 | "request" reads its three names and succeeds iff the pad link does; "ignore" succeeds; anything else fails; unreadable fields throw |
| YamlParser.LinkStaticPadElements | iva/modules/gst/pipeline/yamlParser.hpp:41-55 | fails without a previous element, otherwise as the static link does |
| YamlParser.LinkPipelineElements | iva/modules/gst/pipeline/yamlParser.hpp:149-174 | an unreadable alias fails; only a link field can throw; an element other than "source" without a link field links iff there is a previous element and the static link succeeds |
| YamlParser.FirstElementNeedsSourceAlias | iva/modules/gst/pipeline/yamlParser.hpp:149-174 | with no link field and no previous element the linking succeeds iff the alias is "source" |
| YamlParser.LinkFieldDecides | iva/modules/gst/pipeline/yamlParser.hpp:161-164 | with a link field, `set_links` decides |
| Errors.StrError | iva/modules/core/common/errors.hpp:32-52 | 0 reads "OK", 1003 has the invalid-config text, and every other code (1001 included) the default text |
| Errors.BaseError.constructor | iva/modules/core/common/errors.hpp:71-75 | the code and the message are stored |
| Errors.BaseError.Reset | iva/modules/core/common/errors.hpp:82-86 | `operator()` replaces both the code and the message |
| Errors.BaseError.What | iva/modules/core/common/errors.hpp:92-99 | the message when there is one, otherwise the text for the code; never empty |
| Numeric.ToInt32 | iva/modules/gst/pipeline/Pipeline.cpp:117-121 | the conversion to a 32-bit `int` keeps the value modulo 2^32 and is the identity in range |
| Numeric.FloatToInt | iva/modules/gst/processing/Processing.cpp:211-212 | a float cast to `int` truncates toward zero when the result fits |
| Strings.IntToString | iva/modules/gst/processing/Processing.cpp:385-386 | `std::to_string` gives a non-empty text that starts with '-' iff the value is negative |
| Strings.DigitsValueOfNatToString | iva/modules/gst/pipeline/Pipeline.cpp:329 | the decimal digits of a number read back as that number |
| Strings.NatToStringInjective | iva/modules/gst/pipeline/Pipeline.cpp:329 | distinct bin numbers give distinct bin names |

## Left out

- GStreamer graph construction and running are foreign calls. This covers `_setup_pipeline_bus` element work, `_create_pipeline`, `_run_pipeline`, the element creation in `_create_pipeline_from_yaml`, the `create*Bin` functions, `on_pad_added`, `save_debug_dot`, `get_element_name` and discoverer.hpp. Whether the pipeline and its graph could be made, and what a pad link returns, are inputs.
- The YAML builder `_create_pipeline_from_yaml` is compiled only with `YAML_CONFIGS`, and `_set_up` has no yaml branch otherwise. Only its decisions are modelled: the source property splitting, `set_element_properties`, the linking functions and `_set_callbacks`. The element-by-element driver itself is not.
- `Pipeline::_create_kafka_publish_event` is not called from anywhere in the shown code. The processing module's own publish event is modelled instead.
- callbacks.hpp is not part of this model. It holds buffer conversion, image dumps, and probe wrappers that always return `GST_PAD_PROBE_OK`.
- Buffer mapping, caps parsing, frame colour conversion and the OpenCV drawing are left out. Caps and mapping results are inputs. The overlay is modelled as the list of boxes and captions it would draw.
- File I/O is left out: the config file read, the model-file checks, the debug payload dump (`save`), logging set-up and the software licence. `_load_module_configs` is modelled from the parsed document onwards.
- processUtils.hpp is not part of this model. The wall clock, timestamp and uuid it provides are inputs (`FrameStamp`).
- Floating point is modelled by reals. Single-precision rounding of the box coordinates and of confidence·100 is not modelled. Only the truncating cast to `int` is.
- Messaging.ProducerStepFailure: the failed send it models is an exception thrown synchronously out of `publisher.send` (KafkaBroker.cpp:201-206). The delivery callback's `throw error` runs later on the Kafka client's thread, outside the producer loop's `try`, and that error path is not modelled.
- The Kafka client, the thread pools, the mutexes and the sleeps are left out. Topic listings, send outcomes and what the producer does while `stop` sleeps are inputs. Tasks pushed to the pool are recorded in `tasks` rather than run.
- Infinite or blocking loops are modelled over a finite prefix of their inputs, with a flag or count saying whether they are still running. These are the connection retries, the producer loop, `stop`'s wait and `start`'s wait.
- `probe_callback` notifies the mediator after each record it queues. The model returns the events in order and the mediator forwards them after the batch. `InterleavedIsBatched` proves that both orders end with the same queues.
- Concurrency is not modelled. The producer thread and the pipeline thread are not interleaved with the mediator. `Mediator::_mutex` is never taken in `notify`, and `app_state` is changed by other threads during `start`'s wait; the model reads that state from a list of observations.
- `GstProcessing.FanOut`: a stream index past the display queues is undefined behaviour in the C++ (an unchecked vector index). The callers' preconditions rule it out. The function then leaves the display queues alone.
- `EventMediator.Mediator.ProducePayload` requires a waiting record and a `KafkaEvent`. The C++ reads the front of an empty queue and dereferences a failed `dynamic_cast` without checking, which is undefined behaviour.
- `GstProcessing.Processing.OsdCallback` requires the recovered stream index to be in range, for the same unchecked vector index.
- The `pipelineUtils` helpers `areAllElementsStrings`, `areAllElementsUniqueStrings`, `checkStringStartsWith` and `checkStringEndsWith` are not in the shown header. They are modelled as "all strings", "pairwise distinct", "prefix" and "suffix", and a null or non-string element fails them.
- `GstPipeline.Pipeline.CheckSinks`: for an rtmp sink the C++ indexes `sources[i]` with a non-const `operator[]`. For i beyond the last source, nlohmann pads the stored sources with nulls. The model pads the same way, and the null fails the prefix check.
- `img_height`, `img_width`, `sync` and `live_source` (Pipeline.h:42) are uninitialised in a pipeline that was never configured. The model starts them at 0 and false.
- `Messaging.KafkaBroker.constructor`: `_producer_enable` is used in KafkaBroker.cpp:93 and :108 but not declared in KafkaBroker.h, so its type and initial value are not in the source. The model declares it as a boolean that starts false, so an unconfigured broker is disabled.
- `Processing::set_up` before `set_configs`: the settings start unset (empty strings, false, 0) instead of indeterminate.
- `strerror` returns the `c_str()` of a destroyed local string, which is a dangling pointer. The model returns the text that was meant.
- yaml-cpp reads a null node as the text "null" and throws for a missing node, a sequence or a map. Tagged scalars and other conversions are not modelled.
- `YamlParser.Classify`: `stof` can overflow on a float-looking value. That throw is not modelled, and the value is classified as a float.
- `Messaging.NjsonToString` is modelled on object payloads, which are the only payloads the producer sends. nlohmann iterates object members in key order; the model iterates in list order, and the records the probe builds list their members in key order.
- The consumer settings, `paired_device_id`, `minimum_iou_score`, `check_output_queue`, `set_up()` without arguments, `frame_counter` and `_spyder_health` appear only in stale tests. None of them exists in the code and none is modelled.
- BaseComponent.h and main.cpp are not part of this model. They hold the module-id enum, printing and the process entry.

## Findings

| source | as written | input that shows it | evidently intended | confidence | as-written member | corrected member |
|---|---|---|---|---|---|---|
| iva/modules/gst/pipeline/Pipeline.cpp:234-240 | for an rtmp sink, the "rtmp://" prefix is checked on `sources[i]` instead of `sinks[i]` | `{"src_type":"rtsp","sink_type":"rtmp","sources":["rtsp://cam"],"sinks":["rtmp://out"],"input_height":720,"input_width":1280,"sync":false}` is refused: an rtsp source must start with "rtsp://", so it never also starts with "rtmp://" | each rtmp sink URL starts with "rtmp://" | not executed | GstPipeline.RtspToRtmpRefused | GstPipeline.IntendedConfOk |
