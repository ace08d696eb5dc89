/**
 * The processing module (core::Processing): it turns the inference metadata
 * of each batch into one JSON record per frame that has detections, queues
 * those records for the Kafka producer and for the on-screen overlay of their
 * stream, and draws the queued detections onto the video.
 */
module GstProcessing {
  import opened Wrappers
  import opened Numeric
  import opened Strings
  import opened Json
  import Events

  /** core::Module::GST_PROCESSOR, the module id the processor puts on its events. */
  const GST_PROCESSOR: int := 3

  /** The "processing" section of config.json once it has been checked. */
  datatype ProcessingSettings = ProcessingSettings(
    topic: string,
    deviceId: string,
    model: string,
    modelType: string,
    publish: bool,
    save: bool,
    displayDetections: bool,
    bboxLineThickness: int,
    minConfidenceToDisplay: int,
    fontSize: int)

  /** The settings before any configuration (the C++ leaves the scalars uninitialised; the model starts them at false and 0). */
  const UNSET_SETTINGS := ProcessingSettings("", "", "", "", false, false, false, 0, 0, 0)

  /** The type checks `Processing::set_configs` makes, in its order. */
  predicate AcceptsProcessingConf(conf: Json)
  {
    && Get(conf, "topic").Str?
    && Get(conf, "device_id").Str?
    && Get(conf, "model").Str?
    && Get(conf, "model_type").Str?
    && Get(conf, "publish").Bool?
    && Get(conf, "save").Bool?
    && Get(conf, "display_detections").Bool?
    && Get(conf, "bbox_line_thickness").Int?
    && Get(conf, "min_confidence_to_display").Int?
    && Get(conf, "font_size").Int?
  }

  /** The settings a checked section converts to; integers are narrowed to `int`. */
  function SettingsOf(conf: Json): (cfg: ProcessingSettings)
    requires AcceptsProcessingConf(conf)
    ensures cfg.topic == Get(conf, "topic").s && cfg.deviceId == Get(conf, "device_id").s
    ensures cfg.model == Get(conf, "model").s && cfg.modelType == Get(conf, "model_type").s
    ensures cfg.publish == Get(conf, "publish").b && cfg.save == Get(conf, "save").b
    ensures cfg.displayDetections == Get(conf, "display_detections").b
    ensures cfg.bboxLineThickness == ToInt32(Get(conf, "bbox_line_thickness").n)
    ensures cfg.minConfidenceToDisplay == ToInt32(Get(conf, "min_confidence_to_display").n)
    ensures cfg.fontSize == ToInt32(Get(conf, "font_size").n)
    ensures IsInt32(cfg.bboxLineThickness) && IsInt32(cfg.minConfidenceToDisplay) && IsInt32(cfg.fontSize)
  {
    ProcessingSettings(
      Get(conf, "topic").s, Get(conf, "device_id").s, Get(conf, "model").s, Get(conf, "model_type").s,
      Get(conf, "publish").b, Get(conf, "save").b, Get(conf, "display_detections").b,
      ToInt32(Get(conf, "bbox_line_thickness").n), ToInt32(Get(conf, "min_confidence_to_display").n),
      ToInt32(Get(conf, "font_size").n))
  }

  /** An accepted section is a non-empty object, so an empty or null section is rejected. */
  lemma AcceptedConfIsObject(conf: Json)
    requires AcceptsProcessingConf(conf)
    ensures conf.Obj? && !IsEmpty(conf)
  {
    assert Contains(conf, "topic");
  }

  // ---------------------------------------------------------------------
  // Metadata and the records built from it
  // ---------------------------------------------------------------------

  /** One detected object: the tracker's box, the detector's confidence in [0, 1], its label and tracking id. */
  datatype ObjectMeta = ObjectMeta(left: real, top: real, width: real, height: real, confidence: real, objLabel: string, objectId: nat)

  /** One frame of a batch: its number, the stream it came from, and its objects in metadata-list order. */
  datatype FrameMeta = FrameMeta(frameNum: int, sourceId: uint32, objects: seq<ObjectMeta>)

  /** The clock readings and uuid the record of a frame is stamped with. */
  datatype FrameStamp = FrameStamp(utc: int, timestamp: string, uuid: string)

  /** The member names of the records the processor builds. */
  const KEY_BBOX: string := "bbox"
  const KEY_CAMERA_ID: string := "camera_id"
  const KEY_CONFIDENCE: string := "confidence"
  const KEY_DETECTION_TYPE: string := "detection_type"
  const KEY_DEVICE_ID: string := "device_id"
  const KEY_FRAME: string := "frame"
  const KEY_HEIGHT: string := "height"
  const KEY_INFERENCE: string := "inference"
  const KEY_LABEL: string := "label"
  const KEY_META: string := "meta"
  const KEY_MODEL: string := "model"
  const KEY_RESOLUTION: string := "resolution"
  const KEY_TIMESTAMP: string := "timestamp"
  const KEY_TOPIC: string := "topic"
  const KEY_TRACKING_ID: string := "tracking_id"
  const KEY_UTC: string := "utc"
  const KEY_UUID: string := "uuid"
  const KEY_WIDTH: string := "width"
  const KEY_X_MAX: string := "x_max"
  const KEY_X_MIN: string := "x_min"
  const KEY_Y_MAX: string := "y_max"
  const KEY_Y_MIN: string := "y_min"

  /** The box of an inference entry, as a JSON object of its four corners. */
  function BoxRecord(o: ObjectMeta): Json
  {
    Obj([
      (KEY_X_MAX, Int(FloatToInt(o.left + o.width))),
      (KEY_X_MIN, Int(FloatToInt(o.left))),
      (KEY_Y_MAX, Int(FloatToInt(o.top + o.height))),
      (KEY_Y_MIN, Int(FloatToInt(o.top)))])
  }

  /** The inference entry of one object: its box corners and confidence as `(int)` casts, label, tracking and camera ids. */
  function InferenceEntry(o: ObjectMeta, sourceId: uint32): (r: Json)
    ensures r.Obj? && |r.members| == 5
    ensures forall i, k :: 0 <= i < k < |r.members| ==> r.members[i].0 != r.members[k].0
  {
    assert KEY_BBOX != KEY_CAMERA_ID && KEY_BBOX != KEY_CONFIDENCE && KEY_BBOX != KEY_LABEL && KEY_BBOX != KEY_TRACKING_ID;
    assert KEY_CAMERA_ID[1] != KEY_CONFIDENCE[1] && KEY_CAMERA_ID != KEY_LABEL && KEY_CAMERA_ID != KEY_TRACKING_ID;
    assert KEY_CONFIDENCE != KEY_LABEL && KEY_CONFIDENCE != KEY_TRACKING_ID && KEY_LABEL != KEY_TRACKING_ID;
    Obj([
      (KEY_BBOX, BoxRecord(o)),
      (KEY_CAMERA_ID, Int(ToInt32(sourceId))),
      (KEY_CONFIDENCE, Int(FloatToInt(o.confidence * 100.0))),
      (KEY_LABEL, Str(o.objLabel)),
      (KEY_TRACKING_ID, Int(ToInt32(o.objectId)))])
  }

  function Entries(objects: seq<ObjectMeta>, sourceId: uint32): (r: seq<Json>)
    ensures |r| == |objects|
    decreases |objects|
  {
    if objects == [] then []
    else
      var n := |objects| - 1;
      Entries(objects[..n], sourceId) + [InferenceEntry(objects[n], sourceId)]
  }

  function MetaRecord(cfg: ProcessingSettings, width: int, height: int, f: FrameMeta, stamp: FrameStamp): Json
  {
    Obj([
      (KEY_DETECTION_TYPE, Str(cfg.modelType)),
      (KEY_DEVICE_ID, Str(cfg.deviceId)),
      (KEY_FRAME, Int(f.frameNum)),
      (KEY_MODEL, Str(cfg.model)),
      (KEY_RESOLUTION, Obj([(KEY_HEIGHT, Int(height)), (KEY_WIDTH, Int(width))])),
      (KEY_TIMESTAMP, Str(stamp.timestamp)),
      (KEY_UTC, Int(stamp.utc)),
      (KEY_UUID, Str(stamp.uuid))])
  }

  /** A payload: the inference entries, the meta block and the configured topic, in key order. */
  function Payload(cfg: ProcessingSettings, entries: seq<Json>, meta: Json): Json
  {
    Obj([(KEY_INFERENCE, Arr(entries)), (KEY_META, meta), (KEY_TOPIC, Str(cfg.topic))])
  }

  /** The record of a frame. */
  function FrameRecord(cfg: ProcessingSettings, width: int, height: int, f: FrameMeta, stamp: FrameStamp): Json
  {
    Payload(cfg, Entries(f.objects, f.sourceId), MetaRecord(cfg, width, height, f, stamp))
  }

  /** Extending a batch by one frame adds that frame's record when it has objects. */
  lemma DetectionsSnoc(cfg: ProcessingSettings, width: int, height: int, frames: seq<FrameMeta>, stamps: seq<FrameStamp>, i: nat)
    requires |stamps| == |frames| && i < |frames|
    ensures Detections(cfg, width, height, frames[..i + 1], stamps[..i + 1])
      == Detections(cfg, width, height, frames[..i], stamps[..i]) + FrameDetections(cfg, width, height, frames[i], stamps[i])
  {
    assert frames[..i + 1][..i] == frames[..i] && stamps[..i + 1][..i] == stamps[..i];
  }

  /** The frame loop's step: fanning out frame `i` after the first `i` frames is fanning out the first `i + 1`. */
  lemma FrameStep(cfg: ProcessingSettings, width: int, height: int, frames: seq<FrameMeta>, stamps: seq<FrameStamp>, i: nat, start: Queues, qs: Queues)
    requires |stamps| == |frames| && i < |frames|
    requires qs == FanOutAll(cfg, start, Detections(cfg, width, height, frames[..i], stamps[..i]))
    ensures FanOutAll(cfg, qs, FrameDetections(cfg, width, height, frames[i], stamps[i]))
      == FanOutAll(cfg, start, Detections(cfg, width, height, frames[..i + 1], stamps[..i + 1]))
    ensures |Detections(cfg, width, height, frames[..i + 1], stamps[..i + 1])|
      == |Detections(cfg, width, height, frames[..i], stamps[..i])| + |FrameDetections(cfg, width, height, frames[i], stamps[i])|
  {
    DetectionsSnoc(cfg, width, height, frames, stamps, i);
    FanOutAllAppend(cfg, start, Detections(cfg, width, height, frames[..i], stamps[..i]), FrameDetections(cfg, width, height, frames[i], stamps[i]));
  }

  /** A record together with the stream whose overlay queue it belongs to. */
  datatype Detection = Detection(sourceId: uint32, record: Json)

  /** What one frame contributes to a batch: its record, when it has at least one object. */
  function FrameDetections(cfg: ProcessingSettings, width: int, height: int, f: FrameMeta, stamp: FrameStamp): (r: seq<Detection>)
    ensures |r| == if f.objects == [] then 0 else 1
    ensures forall d :: d in r ==> d.sourceId == f.sourceId
  {
    if f.objects == [] then [] else [Detection(f.sourceId, FrameRecord(cfg, width, height, f, stamp))]
  }

  /** One detection per frame that has at least one object, in batch order. */
  function Detections(cfg: ProcessingSettings, width: int, height: int, frames: seq<FrameMeta>, stamps: seq<FrameStamp>): seq<Detection>
    requires |stamps| == |frames|
    decreases |frames|
  {
    if frames == [] then []
    else
      var n := |frames| - 1;
      Detections(cfg, width, height, frames[..n], stamps[..n]) + FrameDetections(cfg, width, height, frames[n], stamps[n])
  }

  function Records(ds: seq<Detection>): seq<Json>
  {
    seq(|ds|, i requires 0 <= i < |ds| => ds[i].record)
  }

  /** The records that belong to stream `q`, in batch order. */
  function StreamRecords(ds: seq<Detection>, q: int): seq<Json>
    decreases |ds|
  {
    if ds == [] then []
    else
      var n := |ds| - 1;
      StreamRecords(ds[..n], q) + (if ds[n].sourceId == q then [ds[n].record] else [])
  }

  /** The positions of the frames that have objects. */
  function FramesWithObjects(frames: seq<FrameMeta>): set<nat>
  {
    set i: nat | i < |frames| && frames[i].objects != []
  }

  lemma FramesWithObjectsSnoc(frames: seq<FrameMeta>)
    requires frames != []
    ensures |FramesWithObjects(frames)| ==
      |FramesWithObjects(frames[..|frames| - 1])| + (if frames[|frames| - 1].objects == [] then 0 else 1)
  {
    var n := |frames| - 1;
    var before := FramesWithObjects(frames[..n]);
    assert before == set i: nat | i < n && frames[i].objects != [];
    if frames[n].objects == [] {
      assert FramesWithObjects(frames) == before;
    } else {
      assert FramesWithObjects(frames) == before + {n};
    }
  }

  /** Every frame with objects yields exactly one record, and every other frame none. */
  lemma {:induction false} DetectionCount(cfg: ProcessingSettings, width: int, height: int, frames: seq<FrameMeta>, stamps: seq<FrameStamp>)
    requires |stamps| == |frames|
    ensures |Detections(cfg, width, height, frames, stamps)| == |FramesWithObjects(frames)|
    decreases |frames|
  {
    if frames != [] {
      var n := |frames| - 1;
      DetectionCount(cfg, width, height, frames[..n], stamps[..n]);
      FramesWithObjectsSnoc(frames);
    }
  }

  /** A stream none of whose frames is in the batch gets no record. */
  lemma {:induction false} OtherStreamsGetNothing(cfg: ProcessingSettings, width: int, height: int, frames: seq<FrameMeta>, stamps: seq<FrameStamp>, q: int)
    requires |stamps| == |frames|
    requires forall i :: 0 <= i < |frames| ==> frames[i].sourceId != q
    ensures StreamRecords(Detections(cfg, width, height, frames, stamps), q) == []
    decreases |frames|
  {
    if frames != [] {
      var n := |frames| - 1;
      OtherStreamsGetNothing(cfg, width, height, frames[..n], stamps[..n], q);
      var ds := Detections(cfg, width, height, frames[..n], stamps[..n]);
      if frames[n].objects != [] {
        var d := Detection(frames[n].sourceId, FrameRecord(cfg, width, height, frames[n], stamps[n]));
        assert Detections(cfg, width, height, frames, stamps) == ds + [d];
        StreamRecordsSnoc(ds, d, q);
      } else {
        assert Detections(cfg, width, height, frames, stamps) == ds;
      }
    }
  }

  /** Appending one detection extends the stream's records by it exactly when it is for that stream. */
  lemma StreamRecordsSnoc(ds: seq<Detection>, d: Detection, q: int)
    ensures StreamRecords(ds + [d], q) == StreamRecords(ds, q) + (if d.sourceId == q then [d.record] else [])
  {
    assert (ds + [d])[..|ds|] == ds;
  }

  // ---------------------------------------------------------------------
  // Drawing the queued detections
  // ---------------------------------------------------------------------

  /** A box and its caption, drawn onto a frame. */
  datatype Overlay = Overlay(xMin: int, yMin: int, xMax: int, yMax: int, caption: string)

  /** The caption above a box: label, tracking id in brackets, " % " and the confidence. */
  function Caption(objLabel: string, trackingId: int, confidence: int): (c: string)
    ensures StartsWith(c, objLabel + "[" + IntToString(trackingId) + "]")
    ensures EndsWith(c, " % " + IntToString(confidence))
    ensures |c| == |objLabel| + |IntToString(trackingId)| + |IntToString(confidence)| + 5
  {
    var prefix := objLabel + "[" + IntToString(trackingId) + "]";
    var suffix := " % " + IntToString(confidence);
    assert (prefix + suffix)[..|prefix|] == prefix && (prefix + suffix)[|prefix|..] == suffix;
    prefix + suffix
  }

  /** The box threshold: drawn only when strictly above the configured minimum. */
  predicate IsDrawn(confidence: int, minConfidence: int)
  {
    confidence > minConfidence
  }

  /** `get<int>()`: numbers and booleans convert (narrowed to `int`), anything else throws. */
  function AsInt(j: Json): (r: Option<int>)
    ensures r.None? <==> !(j.Int? || j.Bool?)
    ensures r.Some? ==> IsInt32(r.value)
    ensures j.Int? ==> r == Some(ToInt32(j.n))
    ensures j.Int? && IsInt32(j.n) ==> r == Some(j.n)
    ensures j.Bool? ==> r == Some(if j.b then 1 else 0)
  {
    match j
    case Int(n) => Some(ToInt32(n))
    case Bool(b) => Some(if b then 1 else 0)
    case _ => None
  }

  /**
   * What one inference entry contributes: None where a field is missing or
   * wrongly typed (the drawing code then stops the process), otherwise
   * its box when its confidence passes the threshold.
   */
  function EntryOverlay(entry: Json, minConfidence: int): (r: Option<seq<Overlay>>)
    ensures !Get(entry, KEY_LABEL).Str? || AsInt(Get(entry, KEY_CONFIDENCE)).None? ==> r.None?
    ensures AsInt(Get(entry, KEY_TRACKING_ID)).None? ==> r.None?
    ensures AsInt(Get(Get(entry, KEY_BBOX), KEY_X_MIN)).None? || AsInt(Get(Get(entry, KEY_BBOX), KEY_Y_MIN)).None? ==> r.None?
    ensures AsInt(Get(Get(entry, KEY_BBOX), KEY_X_MAX)).None? || AsInt(Get(Get(entry, KEY_BBOX), KEY_Y_MAX)).None? ==> r.None?
    ensures r.Some? ==> |r.value| <= 1
    ensures r.Some? ==> (r.value != [] <==> IsDrawn(AsInt(Get(entry, KEY_CONFIDENCE)).value, minConfidence))
  {
    var bbox := Get(entry, KEY_BBOX);
    var tracking := AsInt(Get(entry, KEY_TRACKING_ID));
    var objLabel := Get(entry, KEY_LABEL);
    var confidence := AsInt(Get(entry, KEY_CONFIDENCE));
    var xMin, yMin := AsInt(Get(bbox, KEY_X_MIN)), AsInt(Get(bbox, KEY_Y_MIN));
    var xMax, yMax := AsInt(Get(bbox, KEY_X_MAX)), AsInt(Get(bbox, KEY_Y_MAX));
    if tracking.None? || !objLabel.Str? || confidence.None? || xMin.None? || yMin.None? || xMax.None? || yMax.None? then None
    else if IsDrawn(confidence.value, minConfidence) then
      Some([Overlay(xMin.value, yMin.value, xMax.value, yMax.value, Caption(objLabel.s, tracking.value, confidence.value))])
    else Some([])
  }

  /** The overlays of a list of entries, or None as soon as one entry cannot be read. */
  function EntriesOverlays(entries: seq<Json>, minConfidence: int): (r: Option<seq<Overlay>>)
    ensures r.Some? ==> |r.value| <= |entries|
    decreases |entries|
  {
    if entries == [] then Some([])
    else
      var n := |entries| - 1;
      match EntriesOverlays(entries[..n], minConfidence)
      case None => None
      case Some(drawn) =>
        match EntryOverlay(entries[n], minConfidence)
        case None => None
        case Some(more) => Some(drawn + more)
  }
  /** One more readable entry extends the plan of the entries before it by that entry's boxes. */
  lemma EntriesOverlaysStep(entries: seq<Json>, d: int, minConfidence: int, drawn: seq<Overlay>, more: seq<Overlay>)
    requires 0 <= d < |entries|
    requires EntriesOverlays(entries[..d], minConfidence) == Some(drawn)
    requires EntryOverlay(entries[d], minConfidence) == Some(more)
    ensures EntriesOverlays(entries[..d + 1], minConfidence) == Some(drawn + more)
  {
    assert entries[..d + 1][..d] == entries[..d];
  }


  /**
   * `_write_detections_to_image` minus the rendering: what it draws for a
   * payload, or None where it stops the process (no "inference" member, a
   * non-array inference value that has elements, or an unreadable entry).
   */
  function DrawPlan(payload: Json, minConfidence: int): (r: Option<seq<Overlay>>)
    ensures !Contains(payload, KEY_INFERENCE) ==> r.None?
    ensures Contains(payload, KEY_INFERENCE) && Size(Get(payload, KEY_INFERENCE)) == 0 ==> r == Some([])
    ensures r.Some? && Get(payload, KEY_INFERENCE).Arr? ==> |r.value| <= |Get(payload, KEY_INFERENCE).items|
  {
    if !Contains(payload, KEY_INFERENCE) then None
    else
      var detection := Get(payload, KEY_INFERENCE);
      if Size(detection) == 0 then Some([])
      else if !detection.Arr? then None
      else EntriesOverlays(detection.items, minConfidence)
  }

  /** The box expected for one object: drawn only when its truncated confidence passes the threshold. */
  function ObjectOverlay(o: ObjectMeta, minConfidence: int): seq<Overlay>
  {
    var confidence := FloatToInt(o.confidence * 100.0);
    if IsDrawn(confidence, minConfidence)
    then [Overlay(FloatToInt(o.left), FloatToInt(o.top), FloatToInt(o.left + o.width), FloatToInt(o.top + o.height),
                  Caption(o.objLabel, ToInt32(o.objectId), confidence))]
    else []
  }

  /** The overlays expected for a frame's objects, computed from the metadata directly. */
  function ExpectedOverlays(objects: seq<ObjectMeta>, minConfidence: int): seq<Overlay>
    decreases |objects|
  {
    if objects == [] then []
    else
      var n := |objects| - 1;
      ExpectedOverlays(objects[..n], minConfidence) + ObjectOverlay(objects[n], minConfidence)
  }

  /** Reading the corners of a box back gives the values it was built from. */
  lemma BoxRecordFields(o: ObjectMeta)
    ensures Get(BoxRecord(o), KEY_X_MIN) == Int(FloatToInt(o.left))
    ensures Get(BoxRecord(o), KEY_Y_MIN) == Int(FloatToInt(o.top))
    ensures Get(BoxRecord(o), KEY_X_MAX) == Int(FloatToInt(o.left + o.width))
    ensures Get(BoxRecord(o), KEY_Y_MAX) == Int(FloatToInt(o.top + o.height))
  {
    var bs := BoxRecord(o).members;
    assert KEY_X_MIN[3] != KEY_X_MAX[3];
    assert KEY_Y_MAX != KEY_X_MAX && KEY_Y_MAX != KEY_X_MIN;
    assert KEY_Y_MIN[3] != KEY_Y_MAX[3] && KEY_Y_MIN != KEY_X_MAX && KEY_Y_MIN != KEY_X_MIN;
    LookupAt(bs, KEY_X_MAX, 0);
    LookupAt(bs, KEY_X_MIN, 1);
    LookupAt(bs, KEY_Y_MAX, 2);
    LookupAt(bs, KEY_Y_MIN, 3);
  }

  /** Reading the fields of an inference entry back gives the values it was built from. */
  lemma InferenceEntryFields(o: ObjectMeta, sourceId: uint32)
    ensures Get(InferenceEntry(o, sourceId), KEY_TRACKING_ID) == Int(ToInt32(o.objectId))
    ensures Get(InferenceEntry(o, sourceId), KEY_LABEL) == Str(o.objLabel)
    ensures Get(InferenceEntry(o, sourceId), KEY_CONFIDENCE) == Int(FloatToInt(o.confidence * 100.0))
    ensures Get(InferenceEntry(o, sourceId), KEY_BBOX) == BoxRecord(o)
    ensures Get(InferenceEntry(o, sourceId), KEY_CAMERA_ID) == Int(ToInt32(sourceId))
  {
    var ms := InferenceEntry(o, sourceId).members;
    assert KEY_CAMERA_ID != KEY_BBOX;
    assert KEY_TRACKING_ID != KEY_BBOX && KEY_TRACKING_ID != KEY_CAMERA_ID && KEY_TRACKING_ID != KEY_CONFIDENCE && KEY_TRACKING_ID != KEY_LABEL;
    assert KEY_LABEL != KEY_BBOX && KEY_LABEL != KEY_CAMERA_ID && KEY_LABEL != KEY_CONFIDENCE;
    assert KEY_CONFIDENCE != KEY_BBOX && KEY_CONFIDENCE != KEY_CAMERA_ID;
    LookupAt(ms, KEY_BBOX, 0);
    LookupAt(ms, KEY_CAMERA_ID, 1);
    LookupAt(ms, KEY_CONFIDENCE, 2);
    LookupAt(ms, KEY_LABEL, 3);
    LookupAt(ms, KEY_TRACKING_ID, 4);
  }

  /** An entry whose fields all read as integers (and a string label) yields its box, or nothing when below the threshold. */
  lemma EntryOverlayOfFields(entry: Json, objLabel: string, tracking: int, confidence: int, xMin: int, yMin: int, xMax: int, yMax: int, minConfidence: int)
    requires IsInt32(tracking) && IsInt32(confidence) && IsInt32(xMin) && IsInt32(yMin) && IsInt32(xMax) && IsInt32(yMax)
    requires Get(entry, KEY_TRACKING_ID) == Int(tracking) && Get(entry, KEY_LABEL) == Str(objLabel) && Get(entry, KEY_CONFIDENCE) == Int(confidence)
    requires Get(Get(entry, KEY_BBOX), KEY_X_MIN) == Int(xMin) && Get(Get(entry, KEY_BBOX), KEY_Y_MIN) == Int(yMin)
    requires Get(Get(entry, KEY_BBOX), KEY_X_MAX) == Int(xMax) && Get(Get(entry, KEY_BBOX), KEY_Y_MAX) == Int(yMax)
    ensures EntryOverlay(entry, minConfidence) ==
      Some(if IsDrawn(confidence, minConfidence) then [Overlay(xMin, yMin, xMax, yMax, Caption(objLabel, tracking, confidence))] else [])
  {
  }

  /** An entry holding an object's tracking id, label, confidence and box corners yields that object's overlay. */
  lemma ObjectOverlayOfFields(entry: Json, o: ObjectMeta, minConfidence: int)
    requires Get(entry, KEY_TRACKING_ID) == Int(ToInt32(o.objectId)) && Get(entry, KEY_LABEL) == Str(o.objLabel)
    requires Get(entry, KEY_CONFIDENCE) == Int(FloatToInt(o.confidence * 100.0))
    requires Get(Get(entry, KEY_BBOX), KEY_X_MIN) == Int(FloatToInt(o.left)) && Get(Get(entry, KEY_BBOX), KEY_Y_MIN) == Int(FloatToInt(o.top))
    requires Get(Get(entry, KEY_BBOX), KEY_X_MAX) == Int(FloatToInt(o.left + o.width))
    requires Get(Get(entry, KEY_BBOX), KEY_Y_MAX) == Int(FloatToInt(o.top + o.height))
    ensures EntryOverlay(entry, minConfidence) == Some(ObjectOverlay(o, minConfidence))
  {
    EntryOverlayOfFields(entry, o.objLabel, ToInt32(o.objectId), FloatToInt(o.confidence * 100.0),
      FloatToInt(o.left), FloatToInt(o.top), FloatToInt(o.left + o.width), FloatToInt(o.top + o.height), minConfidence);
    ObjectOverlayUnfolds(o, minConfidence);
  }

  /** `ObjectOverlay` unfolded once, as a separate step so that the proof above need not search for it. */
  lemma ObjectOverlayUnfolds(o: ObjectMeta, minConfidence: int)
    ensures ObjectOverlay(o, minConfidence) ==
      var confidence := FloatToInt(o.confidence * 100.0);
      if IsDrawn(confidence, minConfidence)
      then [Overlay(FloatToInt(o.left), FloatToInt(o.top), FloatToInt(o.left + o.width), FloatToInt(o.top + o.height),
                    Caption(o.objLabel, ToInt32(o.objectId), confidence))]
      else []
  {
  }

  lemma EntryOverlayOfObject(o: ObjectMeta, sourceId: uint32, minConfidence: int)
    ensures EntryOverlay(InferenceEntry(o, sourceId), minConfidence) == Some(ObjectOverlay(o, minConfidence))
  {
    InferenceEntryFields(o, sourceId);
    BoxRecordFields(o);
    ObjectOverlayOfFields(InferenceEntry(o, sourceId), o, minConfidence);
  }

  lemma {:induction false} EntriesOverlaysOfObjects(objects: seq<ObjectMeta>, sourceId: uint32, minConfidence: int)
    ensures EntriesOverlays(Entries(objects, sourceId), minConfidence) == Some(ExpectedOverlays(objects, minConfidence))
    decreases |objects|
  {
    var entries := Entries(objects, sourceId);
    if objects != [] {
      var n := |objects| - 1;
      assert entries[..n] == Entries(objects[..n], sourceId) && entries[n] == InferenceEntry(objects[n], sourceId);
      EntriesOverlaysOfObjects(objects[..n], sourceId, minConfidence);
      EntryOverlayOfObject(objects[n], sourceId, minConfidence);
    } else {
      assert entries == [];
    }
  }

  /**
   * Drawing a record the processor built reproduces its objects: a box per
   * object whose truncated confidence is strictly above the minimum, in
   * metadata order, at (left, top)-(left+width, top+height).
   */
  lemma OverlaysOfFrameRecord(cfg: ProcessingSettings, width: int, height: int, f: FrameMeta, stamp: FrameStamp, minConfidence: int)
    ensures DrawPlan(FrameRecord(cfg, width, height, f, stamp), minConfidence) == Some(ExpectedOverlays(f.objects, minConfidence))
  {
    EntriesOverlaysOfObjects(f.objects, f.sourceId, minConfidence);
    if f.objects == [] {
      assert Entries(f.objects, f.sourceId) == [];
    }
  }

  // ---------------------------------------------------------------------
  // The overlay stream index
  // ---------------------------------------------------------------------

  /**
   * `std::stoi(binName.substr(binName.length() - 1))`: the value of the name's
   * last character; None where `substr` or `stoi` throws (an empty name, a
   * last character that is not a digit).
   */
  function StreamIndex(binName: string): (r: Option<nat>)
    ensures r.Some? <==> |binName| > 0 && IsDigit(binName[|binName| - 1])
    ensures r.Some? ==> r.value < 10
  {
    if |binName| > 0 && IsDigit(binName[|binName| - 1]) then Some(DigitValue(binName[|binName| - 1])) else None
  }

  /** For a sink bin named "sinkBin" + b, the index read back is the last decimal digit of b. */
  lemma SinkBinStreamIndex(b: nat)
    ensures StreamIndex("sinkBin" + NatToString(b)) == Some(b % 10)
  {
    var name := "sinkBin" + NatToString(b);
    assert name[|name| - 1] == NatToString(b)[|NatToString(b)| - 1];
  }

  /** So the index names the bin's own stream exactly when there are at most ten streams' worth of numbers. */
  lemma SinkBinIndexRecovered(b: nat)
    ensures StreamIndex("sinkBin" + NatToString(b)) == Some(b) <==> b < 10
  {
    SinkBinStreamIndex(b);
  }

  /** What an overlay callback ends in, when it does not return normally. */
  datatype OsdOutcome =
    | OsdAborted           // LOG(FATAL) or an uncaught exception
    | OsdReturned(ok: bool, drawn: seq<Overlay>)

  /** The outcome of drawing one popped record, given the buffer's format and whether it mapped. */
  function OsdOutcomeOf(detection: Json, videoFormat: string, mapOk: bool, minConfidence: int): OsdOutcome
  {
    if IsEmpty(detection) then OsdAborted
    else if !mapOk then OsdReturned(false, [])
    else if videoFormat != "RGB" && videoFormat != "YV12" then OsdAborted
    else match DrawPlan(detection, minConfidence)
      case None => OsdAborted
      case Some(drawn) => OsdReturned(true, drawn)
  }

  /** The producer queue and the per-stream overlay queues of the processor. */
  datatype Queues = Queues(meta: seq<Json>, display: seq<seq<Json>>)

  /**
   * Where one record goes: the producer queue when publishing, its stream's
   * queue when displaying. (A stream index past the overlay queues is
   * undefined behaviour in the C++; every caller here rules it out, and the
   * function then leaves the overlay queues alone.)
   */
  function FanOut(cfg: ProcessingSettings, qs: Queues, d: Detection): (r: Queues)
    ensures |r.display| == |qs.display|
  {
    Queues(
      if cfg.publish then qs.meta + [d.record] else qs.meta,
      if cfg.displayDetections && d.sourceId < |qs.display| then qs.display[d.sourceId := qs.display[d.sourceId] + [d.record]] else qs.display)
  }

  /** The queues after the records of a batch have been fanned out in order. */
  function FanOutAll(cfg: ProcessingSettings, qs: Queues, ds: seq<Detection>): (r: Queues)
    ensures |r.display| == |qs.display|
    decreases |ds|
  {
    if ds == [] then qs
    else
      var n := |ds| - 1;
      FanOut(cfg, FanOutAll(cfg, qs, ds[..n]), ds[n])
  }

  /** Fanning out two batches in turn is fanning out their concatenation. */
  lemma {:induction false} FanOutAllAppend(cfg: ProcessingSettings, qs: Queues, ds: seq<Detection>, es: seq<Detection>)
    ensures FanOutAll(cfg, qs, ds + es) == FanOutAll(cfg, FanOutAll(cfg, qs, ds), es)
    decreases |es|
  {
    if es == [] {
      assert ds + es == ds;
    } else {
      var n := |es| - 1;
      FanOutAllAppend(cfg, qs, ds, es[..n]);
      assert (ds + es)[..|ds + es| - 1] == ds + es[..n];
      assert (ds + es)[|ds + es| - 1] == es[n];
    }
  }

  /**
   * After a batch, the producer queue has gained every record (when
   * publishing) and each stream's queue exactly that stream's records
   * (when displaying), in batch order; the number of streams is unchanged.
   */
  lemma {:induction false} FanOutAllQueues(cfg: ProcessingSettings, qs: Queues, ds: seq<Detection>)
    requires cfg.displayDetections ==> forall i :: 0 <= i < |ds| ==> ds[i].sourceId < |qs.display|
    ensures var r := FanOutAll(cfg, qs, ds);
      && r.meta == qs.meta + (if cfg.publish then Records(ds) else [])
      && |r.display| == |qs.display|
      && forall q :: 0 <= q < |r.display| ==> r.display[q] == qs.display[q] + (if cfg.displayDetections then StreamRecords(ds, q) else [])
    decreases |ds|
  {
    if ds != [] {
      var n := |ds| - 1;
      FanOutAllQueues(cfg, qs, ds[..n]);
      assert ds[..n] + [ds[n]] == ds;
      assert Records(ds) == Records(ds[..n]) + [ds[n].record];
      forall q | 0 <= q < |qs.display|
        ensures StreamRecords(ds, q) == StreamRecords(ds[..n], q) + (if ds[n].sourceId == q then [ds[n].record] else [])
      {
        StreamRecordsSnoc(ds[..n], ds[n], q);
      }
    }
  }

  /** Every record of a batch comes from a frame with objects, so it is for one of that frame's streams. */
  lemma {:induction false} DetectionStreams(cfg: ProcessingSettings, width: int, height: int, frames: seq<FrameMeta>, stamps: seq<FrameStamp>, bound: int)
    requires |stamps| == |frames|
    requires forall i :: 0 <= i < |frames| && frames[i].objects != [] ==> frames[i].sourceId < bound
    ensures forall j :: 0 <= j < |Detections(cfg, width, height, frames, stamps)| ==>
      Detections(cfg, width, height, frames, stamps)[j].sourceId < bound
    decreases |frames|
  {
    if frames != [] {
      var n := |frames| - 1;
      DetectionStreams(cfg, width, height, frames[..n], stamps[..n], bound);
      var ds := Detections(cfg, width, height, frames[..n], stamps[..n]);
      if frames[n].objects != [] {
        var d := Detection(frames[n].sourceId, FrameRecord(cfg, width, height, frames[n], stamps[n]));
        assert Detections(cfg, width, height, frames, stamps) == ds + [d];
        var all := ds + [d];
        forall j | 0 <= j < |all|
          ensures all[j].sourceId < bound
        {
          if j < |ds| {
            assert all[j] == ds[j];
            assert ds[j].sourceId < bound;
          } else {
            assert all[j] == d;
            assert frames[n].objects != [];
            assert frames[n].sourceId < bound;
          }
        }
      }
    }
  }

  /** The event `_create_kafka_publish_event` sends, as C++ overload resolution builds it. */
  predicate IsPublishEvent(e: Events.EventBase)
    reads e
  {
    && e.cls == Events.KafkaEventClass
    && e.GetFlags() == Events.Flags(false, false, false)
    && e.Route() == (Events.NO_TYPE, Events.KAFKA_PRODUCE_PAYLOAD, GST_PROCESSOR, 0)
  }

  /** What a probe callback ends in. */
  datatype ProbeOutcome = ProbeAborted | ProbeReturned(ok: bool)

  class Processing {
    const moduleId: int := GST_PROCESSOR
    var configs: ProcessingSettings
    /** `_processor.meta_queue`: records waiting for the Kafka producer, front first. */
    var metaQueue: seq<Json>
    /** `_display_queue`: one queue of records per stream, waiting for the overlay. */
    var displayQueues: seq<seq<Json>>

    constructor ()
      ensures moduleId == GST_PROCESSOR && configs == UNSET_SETTINGS && metaQueue == [] && displayQueues == []
    {
      configs := UNSET_SETTINGS;
      metaQueue := [];
      displayQueues := [];
    }

    /** `set_configs`: keep the settings only when every field has its type. */
    method SetConfigs(conf: Json) returns (ok: bool)
      modifies this`configs
      ensures ok <==> AcceptsProcessingConf(conf)
      ensures configs == if ok then SettingsOf(conf) else old(configs)
    {
      if !Get(conf, "topic").Str? || !Get(conf, "device_id").Str? || !Get(conf, "model").Str? || !Get(conf, "model_type").Str? {
        return false;
      }
      if !Get(conf, "publish").Bool? || !Get(conf, "save").Bool? || !Get(conf, "display_detections").Bool? {
        return false;
      }
      if !Get(conf, "bbox_line_thickness").Int? || !Get(conf, "min_confidence_to_display").Int? || !Get(conf, "font_size").Int? {
        return false;
      }
      configs := SettingsOf(conf);
      ok := true;
    }

    /** `set_up(source_count)`: a fresh, empty meta queue and one empty display queue per stream. */
    method SetUp(sourceCount: nat)
      modifies this`metaQueue, this`displayQueues
      ensures metaQueue == []
      ensures |displayQueues| == sourceCount
      ensures forall q :: 0 <= q < sourceCount ==> displayQueues[q] == []
    {
      metaQueue := [];
      var queues: seq<seq<Json>> := [];
      var q := 0;
      while q < sourceCount
        invariant 0 <= q <= sourceCount
        invariant |queues| == q && forall k :: 0 <= k < q ==> queues[k] == []
      {
        queues := queues + [[]];
        q := q + 1;
      }
      displayQueues := queues;
    }

    /** The inner loop of `probe_callback`: the inference entries of one frame, in metadata order. */
    method BuildEntries(f: FrameMeta) returns (entries: seq<Json>)
      ensures entries == Entries(f.objects, f.sourceId)
    {
      entries := [];
      var k := 0;
      while k < |f.objects|
        invariant 0 <= k <= |f.objects|
        invariant entries == Entries(f.objects[..k], f.sourceId)
      {
        assert f.objects[..k + 1][..k] == f.objects[..k];
        entries := entries + [InferenceEntry(f.objects[k], f.sourceId)];
        k := k + 1;
      }
      assert f.objects[..k] == f.objects;
    }

    /** `_add_meta_queue`: push a record at the back of the meta queue. */
    method AddMetaQueue(payload: Json)
      modifies this`metaQueue
      ensures metaQueue == old(metaQueue) + [payload]
    {
      metaQueue := metaQueue + [payload];
    }

    /** `check_meta_queue`: whether a record is waiting. */
    function CheckMetaQueue(): (r: bool)
      reads this
      ensures r <==> |metaQueue| > 0
    {
      |metaQueue| > 0
    }

    /**
     * `get_meta_queue`: pop the front record; None where the popped record is
     * empty and the call throws. The C++ reads the front of an empty queue
     * (undefined behaviour), so a record must be waiting.
     */
    method GetMetaQueue() returns (r: Option<Json>)
      requires metaQueue != []
      modifies this`metaQueue
      ensures metaQueue == old(metaQueue)[1..]
      ensures r == if IsEmpty(old(metaQueue)[0]) then None else Some(old(metaQueue)[0])
    {
      var payload := metaQueue[0];
      metaQueue := metaQueue[1..];
      if IsEmpty(payload) {
        return None;
      }
      r := Some(payload);
    }

    /** `_create_kafka_publish_event`: the event that asks the mediator to forward one record. */
    method CreateKafkaPublishEvent() returns (e: Events.EventBase)
      ensures fresh(e) && IsPublishEvent(e)
    {
      // KafkaEvent(KAFKA_PRODUCE_PAYLOAD, guint s_id, int module_id) resolves to the
      // inherited EventBase(action, type, src, dst): the stream id lands in `type`.
      e := new Events.EventBase.Routed(Events.KafkaEventClass, Events.KAFKA_PRODUCE_PAYLOAD, 0, moduleId, 0);
    }

    /**
     * The fan-out of one record that has inference entries: queue it for the
     * producer (with the event that asks the mediator to forward it) when
     * publishing, and for its stream's overlay when displaying.
     */
    method FanOutRecord(d: Detection) returns (events: seq<Events.EventBase>)
      requires configs.displayDetections ==> d.sourceId < |displayQueues|
      modifies this`metaQueue, this`displayQueues
      ensures Queues(metaQueue, displayQueues) == FanOut(configs, old(Queues(metaQueue, displayQueues)), d)
      ensures |displayQueues| == |old(displayQueues)|
      ensures |events| == if configs.publish then 1 else 0
      ensures forall e :: e in events ==> fresh(e) && IsPublishEvent(e)
    {
      events := [];
      if configs.publish {
        AddMetaQueue(d.record);
        var e := CreateKafkaPublishEvent();
        events := [e];
      }
      if configs.displayDetections {
        displayQueues := displayQueues[d.sourceId := displayQueues[d.sourceId] + [d.record]];
      }
    }

    /** One pass of the frame loop of `probe_callback`: build the frame's payload and fan it out if it has entries. */
    method HandleFrame(f: FrameMeta, stamp: FrameStamp, width: int, height: int) returns (events: seq<Events.EventBase>)
      requires configs.displayDetections && f.objects != [] ==> f.sourceId < |displayQueues|
      modifies this`metaQueue, this`displayQueues
      ensures Queues(metaQueue, displayQueues) ==
        FanOutAll(configs, old(Queues(metaQueue, displayQueues)), FrameDetections(configs, width, height, f, stamp))
      ensures |displayQueues| == |old(displayQueues)|
      ensures |events| == if configs.publish then |FrameDetections(configs, width, height, f, stamp)| else 0
      ensures forall e :: e in events ==> fresh(e) && IsPublishEvent(e)
    {
      events := [];
      var entries := BuildEntries(f);
      if entries != [] {
        var payload := Payload(configs, entries, MetaRecord(configs, width, height, f, stamp));
        var d := Detection(f.sourceId, payload);
        ghost var fd := FrameDetections(configs, width, height, f, stamp);
        assert fd == [d] && fd[..0] == [];
        events := FanOutRecord(d);
      }
    }

    /** The frame loop of `probe_callback`, once the buffer has been mapped. */
    method ProcessFrames(width: int, height: int, frames: seq<FrameMeta>, stamps: seq<FrameStamp>)
      returns (events: seq<Events.EventBase>)
      requires |stamps| == |frames|
      requires configs.displayDetections ==>
        forall i :: 0 <= i < |frames| && frames[i].objects != [] ==> frames[i].sourceId < |displayQueues|
      modifies this`metaQueue, this`displayQueues
      ensures configs.displayDetections ==>
        forall j :: 0 <= j < |Detections(configs, width, height, frames, stamps)| ==>
          Detections(configs, width, height, frames, stamps)[j].sourceId < |old(displayQueues)|
      ensures Queues(metaQueue, displayQueues) == FanOutAll(configs, old(Queues(metaQueue, displayQueues)), Detections(configs, width, height, frames, stamps))
      ensures |events| == if configs.publish then |Detections(configs, width, height, frames, stamps)| else 0
      ensures forall e :: e in events ==> fresh(e) && IsPublishEvent(e)
    {
      events := [];
      ghost var start := Queues(metaQueue, displayQueues);
      var i := 0;
      while i < |frames|
        invariant 0 <= i <= |frames|
        invariant |displayQueues| == |start.display|
        invariant Queues(metaQueue, displayQueues) == FanOutAll(configs, start, Detections(configs, width, height, frames[..i], stamps[..i]))
        invariant |events| == (if configs.publish then |Detections(configs, width, height, frames[..i], stamps[..i])| else 0)
        invariant forall e :: e in events ==> fresh(e) && IsPublishEvent(e)
      {
        ghost var qs := Queues(metaQueue, displayQueues);
        var more := HandleFrame(frames[i], stamps[i], width, height);
        FrameStep(configs, width, height, frames, stamps, i, start, qs);
        events := events + more;
        i := i + 1;
      }
      assert frames[..i] == frames && stamps[..i] == stamps;
      if configs.displayDetections {
        DetectionStreams(configs, width, height, frames, stamps, |start.display|);
      }
    }

    /**
     * `probe_callback` over one batch. Records are queued as in the C++; the
     * publish events it hands to the mediator are returned in order instead of
     * being delivered one by one.
     */
    method ProbeCallback(capsOk: bool, mapOk: bool, width: int, height: int, frames: seq<FrameMeta>, stamps: seq<FrameStamp>)
      returns (outcome: ProbeOutcome, events: seq<Events.EventBase>)
      requires |stamps| == |frames|
      requires configs.displayDetections ==>
        forall i :: 0 <= i < |frames| && frames[i].objects != [] ==> frames[i].sourceId < |displayQueues|
      modifies this`metaQueue, this`displayQueues
      ensures !capsOk ==> outcome == ProbeAborted
      ensures capsOk && !mapOk ==> outcome == ProbeReturned(false)
      ensures capsOk && mapOk ==> outcome == ProbeReturned(true)
      ensures !(capsOk && mapOk) ==> Queues(metaQueue, displayQueues) == old(Queues(metaQueue, displayQueues)) && events == []
      ensures capsOk && mapOk ==>
        && Queues(metaQueue, displayQueues) == FanOutAll(configs, old(Queues(metaQueue, displayQueues)), Detections(configs, width, height, frames, stamps))
        && |events| == (if configs.publish then |Detections(configs, width, height, frames, stamps)| else 0)
      ensures forall e :: e in events ==> fresh(e) && IsPublishEvent(e)
    {
      if !capsOk {
        return ProbeAborted, [];
      }
      if !mapOk {
        return ProbeReturned(false), [];
      }
      events := ProcessFrames(width, height, frames, stamps);
      outcome := ProbeReturned(true);
    }

    /**
     * `_write_detections_to_image` minus the rendering: the boxes it draws,
     * or None where it stops the process.
     */
    method WriteDetectionsToImage(payload: Json) returns (r: Option<seq<Overlay>>)
      ensures r == DrawPlan(payload, configs.minConfidenceToDisplay)
    {
      if !Contains(payload, KEY_INFERENCE) {
        return None;
      }
      var detection := Get(payload, KEY_INFERENCE);
      if Size(detection) == 0 {
        return Some([]);
      }
      if !detection.Arr? {
        return None;
      }
      var items := detection.items;
      var drawn: seq<Overlay> := [];
      var d := 0;
      while d < |items|
        invariant 0 <= d <= |items|
        invariant EntriesOverlays(items[..d], configs.minConfidenceToDisplay) == Some(drawn)
      {
        var more := EntryOverlay(items[d], configs.minConfidenceToDisplay);
        if more.None? {
          assert EntriesOverlays(items, configs.minConfidenceToDisplay) == None by {
            assert items[..d + 1][..d] == items[..d];
            EntriesOverlaysFailurePersists(items, d + 1, configs.minConfidenceToDisplay);
          }
          return None;
        }
        EntriesOverlaysStep(items, d, configs.minConfidenceToDisplay, drawn, more.value);
        drawn := drawn + more.value;
        d := d + 1;
      }
      assert items[..d] == items;
      r := Some(drawn);
    }

    /**
     * `osd_callback`: read the stream index from the bin name, pop that
     * stream's front record if there is one, and draw it.
     */
    method OsdCallback(binName: Option<string>, videoFormat: string, mapOk: bool) returns (outcome: OsdOutcome)
      requires binName.Some? && StreamIndex(binName.value).Some? ==> StreamIndex(binName.value).value < |displayQueues|
      modifies this`displayQueues
      ensures binName.None? || StreamIndex(binName.value).None? ==>
        outcome == OsdAborted && displayQueues == old(displayQueues)
      ensures binName.Some? && StreamIndex(binName.value).Some? ==>
        var k := StreamIndex(binName.value).value;
        if old(displayQueues)[k] == [] then
          outcome == OsdReturned(true, []) && displayQueues == old(displayQueues)
        else
          && displayQueues == old(displayQueues)[k := old(displayQueues)[k][1..]]
          && outcome == OsdOutcomeOf(old(displayQueues)[k][0], videoFormat, mapOk, configs.minConfidenceToDisplay)
    {
      if binName.None? {
        return OsdAborted;
      }
      var index := StreamIndex(binName.value);
      if index.None? {
        return OsdAborted;
      }
      var k := index.value;
      if displayQueues[k] == [] {
        return OsdReturned(true, []);
      }
      var detection := displayQueues[k][0];
      displayQueues := displayQueues[k := displayQueues[k][1..]];
      if IsEmpty(detection) {
        return OsdAborted;
      }
      if !mapOk {
        return OsdReturned(false, []);
      }
      if videoFormat != "RGB" && videoFormat != "YV12" {
        return OsdAborted;
      }
      var drawn := WriteDetectionsToImage(detection);
      if drawn.None? {
        return OsdAborted;
      }
      outcome := OsdReturned(true, drawn.value);
    }
  }

  /** Once a prefix of the entries cannot be read, neither can the whole list. */
  lemma {:induction false} EntriesOverlaysFailurePersists(entries: seq<Json>, d: nat, minConfidence: int)
    requires d <= |entries|
    requires EntriesOverlays(entries[..d], minConfidence) == None
    ensures EntriesOverlays(entries, minConfidence) == None
    decreases |entries| - d
  {
    if d < |entries| {
      assert entries[..d + 1][..d] == entries[..d];
      EntriesOverlaysFailurePersists(entries, d + 1, minConfidence);
    } else {
      assert entries[..d] == entries;
    }
  }
  /** Every record of a batch is a non-empty object, so popping it never throws. */
  lemma {:induction false} DetectionRecordsNonEmpty(cfg: ProcessingSettings, width: int, height: int, frames: seq<FrameMeta>, stamps: seq<FrameStamp>)
    requires |stamps| == |frames|
    ensures forall j :: 0 <= j < |Records(Detections(cfg, width, height, frames, stamps))| ==>
      !IsEmpty(Records(Detections(cfg, width, height, frames, stamps))[j])
    decreases |frames|
  {
    if frames != [] {
      var n := |frames| - 1;
      DetectionRecordsNonEmpty(cfg, width, height, frames[..n], stamps[..n]);
      var ds := Detections(cfg, width, height, frames[..n], stamps[..n]);
      var all := Detections(cfg, width, height, frames, stamps);
      assert all == ds + FrameDetections(cfg, width, height, frames[n], stamps[n]);
      forall j | 0 <= j < |all|
        ensures !IsEmpty(all[j].record)
      {
        if j < |ds| {
          assert all[j] == ds[j] && Records(ds)[j] == ds[j].record;
        }
      }
    }
  }
}
