/**
 * The pipeline component: the validator of its configuration section, the
 * set-up dispatch on the source type, the callback decision table of a YAML
 * described element, and the event it raises when the stream ends. The
 * GStreamer graph itself is foreign; its results are inputs.
 */
module GstPipeline {
  import opened Wrappers
  import opened Numeric
  import opened Strings
  import opened Json
  import Events
  import opened PipelineUtils
  import opened YamlParser
  import GstProcessing

  /** core::Module::GST_PIPELINE. */
  const GST_PIPELINE: int := 2

  /** `PipelineConfigs`; `sources` and `sinks` keep the JSON strings as given. */
  datatype PipelineConfigs = PipelineConfigs(
    srcType: string,
    sinkType: string,
    sourceCount: nat,
    sources: seq<Json>,
    sinks: seq<Json>,
    imgHeight: int,
    imgWidth: int,
    liveSource: bool,
    sync: bool)

  /** The configuration before `set_configs` stores one (one source, nothing else set). */
  const DEFAULT_CONFIGS: PipelineConfigs := PipelineConfigs("", "", 1, [], [], 0, 0, false, false)

  // ---------------------------------------------------------------------
  // set_configs
  // ---------------------------------------------------------------------

  /** The type checks, in the order `set_configs` makes them; any failure returns false before anything is stored. */
  predicate AcceptsPipelineConf(conf: Json)
  {
    && !IsEmpty(conf)
    && Get(conf, "src_type").Str?
    && Get(conf, "sink_type").Str?
    && AreAllElementsStrings(Get(conf, "sources"))
    && AreAllElementsStrings(Get(conf, "sinks"))
    && Get(conf, "input_height").Int?
    && Get(conf, "input_width").Int?
    && Get(conf, "sync").Bool?
  }

  /** What is stored once the types pass; `get<int>()` keeps the low 32 bits of the sizes. */
  function ConfigsOf(conf: Json): (c: PipelineConfigs)
    requires AcceptsPipelineConf(conf)
    ensures c.sourceCount == |c.sources| && (c.liveSource <==> c.srcType == "rtsp")
    ensures AllStrings(c.sources) && AllStrings(c.sinks)
  {
    PipelineConfigs(
      Get(conf, "src_type").s,
      Get(conf, "sink_type").s,
      |Get(conf, "sources").items|,
      Get(conf, "sources").items,
      Get(conf, "sinks").items,
      ToInt32(Get(conf, "input_height").n),
      ToInt32(Get(conf, "input_width").n),
      Get(conf, "src_type").s == "rtsp",
      Get(conf, "sync").b)
  }

  predicate IsSourceType(t: string) { t == "file" || t == "rtsp" }

  predicate IsSinkType(t: string) { t == "display" || t == "file" || t == "rtmp" }

  /** The checks on the types and the counts, which clear the result but let validation go on. */
  predicate HeaderOk(c: PipelineConfigs)
  {
    IsSourceType(c.srcType) && |c.sources| >= 1 && IsSinkType(c.sinkType) && (c.sinkType != "display" ==> |c.sinks| >= 1)
  }

  /** The checks on one source: non-empty, and an ".mp4" file or an "rtsp://" address as its type asks. */
  predicate SourceOk(c: PipelineConfigs, i: nat)
    requires i < |c.sources| && AllStrings(c.sources)
  {
    && c.sources[i].s != ""
    && (c.srcType == "file" ==> CheckStringEndsWith(c.sources[i], ".mp4"))
    && (c.srcType == "rtsp" ==> CheckStringStartsWith(c.sources[i], "rtsp://"))
  }

  /**
   * The checks on one sink: non-empty and an ".mp4" file for a file sink.
   * For an rtmp sink the "rtmp://" prefix is looked for on the source at the
   * same position, and there is none past the last source.
   */
  predicate SinkOk(c: PipelineConfigs, i: nat)
    requires i < |c.sinks| && AllStrings(c.sinks)
  {
    && c.sinks[i].s != ""
    && (c.sinkType == "file" ==> CheckStringEndsWith(c.sinks[i], ".mp4"))
    && (c.sinkType == "rtmp" ==> i < |c.sources| && CheckStringStartsWith(c.sources[i], "rtmp://"))
  }

  predicate SourcesOk(c: PipelineConfigs)
    requires AllStrings(c.sources)
  {
    (forall i :: 0 <= i < |c.sources| ==> SourceOk(c, i)) && AreAllElementsUniqueStrings(Arr(c.sources))
  }

  predicate SinksOk(c: PipelineConfigs)
    requires AllStrings(c.sinks)
  {
    (forall i :: 0 <= i < |c.sinks| ==> SinkOk(c, i)) && AreAllElementsUniqueStrings(Arr(c.sinks))
  }

  /**
   * The value `set_configs` returns. An accepted configuration lists its
   * sources and its sinks as pairwise distinct, non-empty strings.
   */
  predicate PipelineConfOk(conf: Json)
    ensures PipelineConfOk(conf) ==> Get(conf, "sources").Arr? && Get(conf, "sinks").Arr?
    ensures PipelineConfOk(conf) ==>
      forall i :: 0 <= i < |Get(conf, "sources").items| ==> Get(conf, "sources").items[i].Str? && Get(conf, "sources").items[i].s != ""
    ensures PipelineConfOk(conf) ==>
      forall i :: 0 <= i < |Get(conf, "sinks").items| ==> Get(conf, "sinks").items[i].Str? && Get(conf, "sinks").items[i].s != ""
    ensures PipelineConfOk(conf) ==>
      forall i, k :: 0 <= i < k < |Get(conf, "sources").items| ==> Get(conf, "sources").items[i] != Get(conf, "sources").items[k]
    ensures PipelineConfOk(conf) ==>
      forall i, k :: 0 <= i < k < |Get(conf, "sinks").items| ==> Get(conf, "sinks").items[i] != Get(conf, "sinks").items[k]
  {
    if AcceptsPipelineConf(conf) &&
      HeaderOk(ConfigsOf(conf)) && ConfigsOf(conf).imgHeight != 0 && ConfigsOf(conf).imgWidth != 0 &&
      SourcesOk(ConfigsOf(conf)) && SinksOk(ConfigsOf(conf))
    then
      var c := ConfigsOf(conf);
      assert forall i :: 0 <= i < |c.sources| ==> c.sources[i].s != "" by {
        forall i | 0 <= i < |c.sources| ensures c.sources[i].s != "" {
          assert SourceOk(c, i);
        }
      }
      assert forall i :: 0 <= i < |c.sinks| ==> c.sinks[i].s != "" by {
        forall i | 0 <= i < |c.sinks| ensures c.sinks[i].s != "" {
          assert SinkOk(c, i);
        }
      }
      true
    else false
  }

  function Nulls(n: nat): (r: seq<Json>)
    ensures |r| == n && forall i :: 0 <= i < n ==> r[i] == Null
  {
    seq(n, _ => Null)
  }

  /** `sources` after `sources[i]` was read through `operator[]`, which pads the array with nulls up to `i`. */
  function PaddedTo(sources: seq<Json>, n: nat): (r: seq<Json>)
    ensures |r| == if n <= |sources| then |sources| else n
    ensures r[..|sources|] == sources
  {
    if n <= |sources| then sources else sources + Nulls(n - |sources|)
  }

  /**
   * What `set_configs` leaves stored: the configuration of the accepted
   * types, whose sources an rtmp sink list longer than them has padded
   * with nulls once the sizes passed.
   */
  function StoredConfigs(conf: Json): (c: PipelineConfigs)
    requires AcceptsPipelineConf(conf)
  {
    var c := ConfigsOf(conf);
    if c.imgHeight != 0 && c.imgWidth != 0 && c.sinkType == "rtmp" then c.(sources := PaddedTo(c.sources, |c.sinks|))
    else c
  }

  /** An accepted configuration stores the source count and the live flag of its sources. */
  lemma StoredConfigsShape(conf: Json)
    requires AcceptsPipelineConf(conf)
    ensures StoredConfigs(conf).sourceCount == |Get(conf, "sources").items|
    ensures StoredConfigs(conf).liveSource <==> Get(conf, "src_type") == Str("rtsp")
    ensures StoredConfigs(conf).sources[..StoredConfigs(conf).sourceCount] == Get(conf, "sources").items
  {
  }

  /** An accepted configuration has a valid source type, at least one source, and a sink list unless it displays. */
  lemma AcceptedConfShape(conf: Json)
    requires PipelineConfOk(conf)
    ensures Get(conf, "src_type") in {Str("file"), Str("rtsp")}
    ensures Get(conf, "sink_type") in {Str("display"), Str("file"), Str("rtmp")}
    ensures |Get(conf, "sources").items| >= 1
    ensures Get(conf, "sink_type") != Str("display") ==> |Get(conf, "sinks").items| >= 1
    ensures Get(conf, "input_height").n % TWO_32 != 0 && Get(conf, "input_width").n % TWO_32 != 0
  {
    var c := ConfigsOf(conf);
    assert Get(conf, "src_type") == Str(c.srcType);
    assert Get(conf, "sink_type") == Str(c.sinkType);
  }

  /** A height of 2^32 passes the integer check but is read as 0, so the configuration is refused. */
  lemma WrappedHeightRefused(conf: Json)
    requires AcceptsPipelineConf(conf) && Get(conf, "input_height") == Int(TWO_32)
    ensures !PipelineConfOk(conf)
  {
    assert ConfigsOf(conf).imgHeight == 0;
  }

  /**
   * Written as is, an rtsp source list can never feed rtmp sinks: the first
   * sink makes the first source start with both "rtsp://" and "rtmp://".
   */
  lemma RtspToRtmpRefused(conf: Json)
    requires AcceptsPipelineConf(conf)
    requires Get(conf, "src_type") == Str("rtsp") && Get(conf, "sink_type") == Str("rtmp")
    ensures !PipelineConfOk(conf)
  {
    var c := ConfigsOf(conf);
    if |c.sources| >= 1 && |c.sinks| >= 1 {
      if CheckStringStartsWith(c.sources[0], "rtsp://") {
        assert c.sources[0].s[..7] == "rtsp://" != "rtmp://";
        assert !SinkOk(c, 0);
      } else {
        assert !SourceOk(c, 0);
      }
    }
  }

  /** The rtmp sink check as intended: on the sink itself. */
  predicate IntendedSinkOk(c: PipelineConfigs, i: nat)
    requires i < |c.sinks| && AllStrings(c.sinks)
  {
    && c.sinks[i].s != ""
    && (c.sinkType == "file" ==> CheckStringEndsWith(c.sinks[i], ".mp4"))
    && (c.sinkType == "rtmp" ==> CheckStringStartsWith(c.sinks[i], "rtmp://"))
  }

  /** The validator with the rtmp prefix checked on the sinks. */
  predicate IntendedConfOk(conf: Json)
  {
    AcceptsPipelineConf(conf) &&
    HeaderOk(ConfigsOf(conf)) && ConfigsOf(conf).imgHeight != 0 && ConfigsOf(conf).imgWidth != 0 &&
    SourcesOk(ConfigsOf(conf)) &&
    (forall i :: 0 <= i < |ConfigsOf(conf).sinks| ==> IntendedSinkOk(ConfigsOf(conf), i)) &&
    AreAllElementsUniqueStrings(Arr(ConfigsOf(conf).sinks))
  }

  /** The two validators agree on every configuration without rtmp sinks. */
  lemma IntendedAgreesWithoutRtmp(conf: Json)
    requires AcceptsPipelineConf(conf) && Get(conf, "sink_type") != Str("rtmp")
    ensures PipelineConfOk(conf) <==> IntendedConfOk(conf)
  {
    var c := ConfigsOf(conf);
    assert c.sinkType != "rtmp";
    assert forall i :: 0 <= i < |c.sinks| ==> (SinkOk(c, i) <==> IntendedSinkOk(c, i));
  }

  /** With the check on the sinks, one rtsp camera restreamed to one rtmp address is accepted. */
  lemma IntendedAcceptsRtspToRtmp(conf: Json)
    requires conf == Obj([
      ("src_type", Str("rtsp")), ("sink_type", Str("rtmp")),
      ("sources", Arr([Str("rtsp://cam")])), ("sinks", Arr([Str("rtmp://out")])),
      ("input_height", Int(720)), ("input_width", Int(1280)), ("sync", Bool(false))])
    ensures IntendedConfOk(conf)
    ensures !PipelineConfOk(conf)
  {
    assert AcceptsPipelineConf(conf);
    var c := ConfigsOf(conf);
    assert c.sources == [Str("rtsp://cam")] && c.sinks == [Str("rtmp://out")];
    assert c.srcType == "rtsp" && c.sinkType == "rtmp";
    assert "rtsp://cam"[..7] == "rtsp://" && "rtmp://out"[..7] == "rtmp://";
    assert SourceOk(c, 0) && IntendedSinkOk(c, 0);
    RtspToRtmpRefused(conf);
  }

  /** The loop over the sources and the check that they are distinct. */
  method CheckSources(c: PipelineConfigs) returns (ok: bool)
    requires AllStrings(c.sources)
    ensures ok == SourcesOk(c)
  {
    ok := true;
    var i := 0;
    while i < |c.sources|
      invariant 0 <= i <= |c.sources|
      invariant ok == forall j :: 0 <= j < i ==> SourceOk(c, j)
    {
      if c.sources[i].s == "" {
        ok := false;
      }
      if c.srcType == "file" {
        if !CheckStringEndsWith(c.sources[i], ".mp4") {
          ok := false;
        }
      } else if c.srcType == "rtsp" {
        if !CheckStringStartsWith(c.sources[i], "rtsp://") {
          ok := false;
        }
      }
      assert ok == ((forall j :: 0 <= j < i ==> SourceOk(c, j)) && SourceOk(c, i));
      i := i + 1;
    }
    if !AreAllElementsUniqueStrings(Arr(c.sources)) {
      ok := false;
    }
  }

  // ---------------------------------------------------------------------
  // _set_callbacks
  // ---------------------------------------------------------------------

  /**
   * `_set_callbacks`: an element without a callback needs none; a probe
   * needs a pad and one of the two processing callbacks; a signal needs a
   * signal name and the pad-added handler; any other type fails. Fields
   * that are present but not strings, and a missing type, throw.
   */
  function SetCallbacks(element: Yaml): (r: Outcome)
    ensures AsString(YGet(element, "alias")).None? ==> r == Failed
    ensures AsString(YGet(element, "alias")).Some? && YGet(element, "callback").None? ==> r == Succeeded
  {
    match AsString(YGet(element, "alias"))
    case None => Failed
    case Some(_) =>
      match YGet(element, "callback")
      case None => Succeeded
      case Some(callback) =>
        match AsString(YGet(callback, "type"))
        case None => Threw
        case Some(callbackType) =>
          if callbackType == "probe" then
            if YGet(callback, "pad").None? || YGet(callback, "function_name").None? then Failed
            else if AsString(YGet(callback, "pad")).None? || AsString(YGet(callback, "function_name")).None? then Threw
            else if AsString(YGet(callback, "function_name")).value in {"probe_callback", "osd_callback"} then Succeeded
            else Failed
          else if callbackType == "signal" then
            if YGet(callback, "element_signal").None? || YGet(callback, "function_name").None? then Failed
            else if AsString(YGet(callback, "element_signal")).None? || AsString(YGet(callback, "function_name")).None? then Threw
            else if AsString(YGet(callback, "function_name")).value == "on_pad_added" then Succeeded
            else Failed
          else Failed
  }

  /** A callback succeeds only as a probe running a processing callback, or as a signal running the pad-added handler. */
  lemma CallbackSucceedsOnlyIfKnown(element: Yaml)
    requires YGet(element, "callback").Some? && SetCallbacks(element) == Succeeded
    ensures var callback := YGet(element, "callback").value;
      (AsString(YGet(callback, "type")) == Some("probe") && YGet(callback, "pad").Some? &&
        AsString(YGet(callback, "function_name")) in {Some("probe_callback"), Some("osd_callback")}) ||
      (AsString(YGet(callback, "type")) == Some("signal") && YGet(callback, "element_signal").Some? &&
        AsString(YGet(callback, "function_name")) == Some("on_pad_added"))
  {
  }

  /** A callback of any type but "probe" and "signal" fails. */
  lemma UnknownCallbackFails(element: Yaml, callbackType: string)
    requires AsString(YGet(element, "alias")).Some? && YGet(element, "callback").Some?
    requires AsString(YGet(YGet(element, "callback").value, "type")) == Some(callbackType)
    requires callbackType != "probe" && callbackType != "signal"
    ensures SetCallbacks(element) == Failed
  {
  }

  // ---------------------------------------------------------------------
  // The component
  // ---------------------------------------------------------------------

  /** The event raised when the stream has ended: it asks the mediator to stop every module. */
  predicate IsFinishedEvent(e: Events.EventBase)
    reads e
  {
    && e.cls == Events.PipelineEventClass
    && e.Route() == (Events.MODULE_PIPELINE, Events.STOP_MODULES, 0, 0)
    && e.GetFlags() == Events.Flags(false, false, false)
  }

  class Pipeline {
    const moduleId: int
    const processor: GstProcessing.Processing
    const busStruct: BusStruct
    var configs: PipelineConfigs

    constructor ()
      ensures moduleId == GST_PIPELINE && configs == DEFAULT_CONFIGS
      ensures fresh(processor) && fresh(busStruct) && processor.metaQueue == [] && processor.displayQueues == []
      ensures busStruct.State() == BusState(0, 5, false)
    {
      moduleId := GST_PIPELINE;
      processor := new GstProcessing.Processing();
      busStruct := new BusStruct();
      configs := DEFAULT_CONFIGS;
    }

    /**
     * `set_configs`: refuse a wrongly typed section, otherwise store it and
     * run every remaining check, clearing the result on each failure; a zero
     * size returns false at once.
     */
    method SetConfigs(conf: Json) returns (ok: bool)
      modifies this`configs
      ensures ok == PipelineConfOk(conf)
      ensures !AcceptsPipelineConf(conf) ==> configs == old(configs)
      ensures AcceptsPipelineConf(conf) ==> configs == StoredConfigs(conf)
    {
      if IsEmpty(conf) || !Get(conf, "src_type").Str? || !Get(conf, "sink_type").Str? {
        return false;
      }
      if !Get(conf, "sources").Arr? || !AreAllElementsStrings(Get(conf, "sources")) {
        return false;
      }
      if !Get(conf, "sinks").Arr? || !AreAllElementsStrings(Get(conf, "sinks")) {
        return false;
      }
      if !Get(conf, "input_height").Int? || !Get(conf, "input_width").Int? || !Get(conf, "sync").Bool? {
        return false;
      }
      var c := ConfigsOf(conf);
      configs := c;

      var ret := true;
      if !IsSourceType(configs.srcType) {
        ret := false;
      }
      if |configs.sources| < 1 {
        ret := false;
      }
      if !IsSinkType(configs.sinkType) {
        ret := false;
      }
      if configs.sinkType != "display" && |configs.sinks| < 1 {
        ret := false;
      }
      if configs.imgHeight == 0 || configs.imgWidth == 0 {
        return false;
      }
      var sourcesOk := CheckSources(configs);
      var sinksOk := CheckSinks();
      ok := ret && sourcesOk && sinksOk;
    }

    /**
     * The loop over the sinks. For an rtmp sink it reads `sources[i]`
     * through `operator[]`, which grows the stored sources with nulls when
     * there are more sinks than sources.
     */
    method CheckSinks() returns (ok: bool)
      requires AllStrings(configs.sinks)
      modifies this`configs
      ensures ok == SinksOk(old(configs))
      ensures configs == if old(configs).sinkType == "rtmp" then old(configs).(sources := PaddedTo(old(configs).sources, |old(configs).sinks|)) else old(configs)
    {
      ghost var c := configs;
      ok := true;
      var i := 0;
      while i < |configs.sinks|
        invariant 0 <= i <= |c.sinks|
        invariant configs == if c.sinkType == "rtmp" then c.(sources := PaddedTo(c.sources, i)) else c
        invariant ok == forall j :: 0 <= j < i ==> SinkOk(c, j)
      {
        if configs.sinks[i].s == "" {
          ok := false;
        }
        if configs.sinkType == "file" {
          if !CheckStringEndsWith(configs.sinks[i], ".mp4") {
            ok := false;
          }
        } else if configs.sinkType == "rtmp" {
          if i >= |configs.sources| {
            // reading past the end of the sources grows them with a null
            configs := configs.(sources := configs.sources + [Null]);
            assert configs.sources == PaddedTo(c.sources, i + 1);
          }
          if !CheckStringStartsWith(configs.sources[i], "rtmp://") {
            ok := false;
          }
        }
        assert ok == ((forall j :: 0 <= j < i ==> SinkOk(c, j)) && SinkOk(c, i));
        i := i + 1;
      }
      if !AreAllElementsUniqueStrings(Arr(configs.sinks)) {
        ok := false;
      }
    }

    /**
     * `_set_up`: size the processor's queues for the sources, set up the bus
     * (which fails when the pipeline element cannot be made), then build the
     * graph for a file or rtsp source; any other source type fails.
     */
    method SetUp(pipelineMade: bool, graphBuilt: bool) returns (ok: bool)
      modifies processor`metaQueue, processor`displayQueues, busStruct
      ensures processor.metaQueue == [] && |processor.displayQueues| == configs.sourceCount
      ensures forall q :: 0 <= q < configs.sourceCount ==> processor.displayQueues[q] == []
      ensures pipelineMade ==> busStruct.State() == BusState(0, 50, false)
      ensures !pipelineMade ==> busStruct.State() == old(busStruct.State())
      ensures ok <==> pipelineMade && IsSourceType(configs.srcType) && graphBuilt
    {
      processor.SetUp(configs.sourceCount);
      if !pipelineMade {
        return false;
      }
      busStruct.SetForPipeline();
      ok := false;
      if configs.srcType == "file" || configs.srcType == "rtsp" {
        ok := graphBuilt;
      }
    }

    /** `start`: a failed set-up is fatal; otherwise the pipeline is run on its own thread. */
    method Start(pipelineMade: bool, graphBuilt: bool) returns (fatal: bool)
      modifies processor`metaQueue, processor`displayQueues, busStruct
      ensures fatal <==> !(pipelineMade && IsSourceType(configs.srcType) && graphBuilt)
      ensures processor.metaQueue == [] && |processor.displayQueues| == configs.sourceCount
    {
      var ok := SetUp(pipelineMade, graphBuilt);
      fatal := !ok;
    }

    /** `_pipeline_finished`: the event asking the mediator to stop the modules. */
    method PipelineFinished() returns (e: Events.EventBase)
      ensures fresh(e) && IsFinishedEvent(e)
    {
      // PipelineEvent(STOP_MODULES, MODULE_PIPELINE) resolves to the inherited
      // EventBase(action, type): the module id lands in `type`.
      e := new Events.EventBase.Routed(Events.PipelineEventClass, Events.STOP_MODULES, Events.MODULE_PIPELINE, 0, 0);
    }
  }
}
