/**
 * Mediator events (core::EventBase and its derived classes) and the module,
 * type and action enumerations they carry.
 */
module Events {
  import opened Wrappers
  import opened Numeric

  // events::Module
  const MODULE_NONE: int := 0
  const MODULE_APPLICATION: int := 1
  const MODULE_APPCONTEXT: int := 2
  const MODULE_PIPELINE: int := 3
  const MODULE_PROCESSING: int := 4
  const MODULE_KAFKA: int := 5
  const ERROR_MODULE: int := 9999

  // events::Type
  const NO_TYPE: int := 0
  const APPLICATION: int := 1
  const APPCONTEXT: int := 2
  const PIPELINE: int := 3
  const PROCESSING: int := 4
  const KAFKA: int := 5
  const ERROR_TYPE: int := 9999

  // events::Actions
  const NO_ACTION: int := 0
  const START_MODULES: int := 1
  const STOP_MODULES: int := 2
  const CONFIGURE_MODULES: int := 3
  const KAFKA_PRODUCE_PAYLOAD: int := 4
  const KAFKA_CONSUME_PAYLOAD: int := 5
  const ERROR_ACTION: int := 9999

  /** `module_to_str`: the printable name of each enumerator. */
  const MODULE_TO_STR: map<int, string> := map[
    MODULE_NONE := "MODULE_NONE", MODULE_APPLICATION := "MODULE_APPLICATION",
    MODULE_APPCONTEXT := "MODULE_APPCONTEXT", MODULE_PIPELINE := "MODULE_PIPELINE",
    MODULE_PROCESSING := "MODULE_PROCESSING", MODULE_KAFKA := "MODULE_KAFKA",
    ERROR_MODULE := "ERROR_MODULE"]

  /** `action_to_str`: the printable name of each enumerator. */
  const ACTION_TO_STR: map<int, string> := map[
    NO_ACTION := "NO_ACTION", START_MODULES := "START_MODULES", STOP_MODULES := "STOP_MODULES",
    CONFIGURE_MODULES := "CONFIGURE_MODULES", KAFKA_PRODUCE_PAYLOAD := "KAFKA_PRODUCE_PAYLOAD",
    KAFKA_CONSUME_PAYLOAD := "KAFKA_CONSUME_PAYLOAD", ERROR_ACTION := "ERROR_ACTION"]

  /**
   * Printing a module: its name, or None where `map::at` throws because the
   * value is not one of the enumerators.
   */
  function ModuleToStr(m: int): (r: Option<string>)
    ensures r.Some? <==> m in {0, 1, 2, 3, 4, 5, 9999}
    ensures m == MODULE_PIPELINE ==> r == Some("MODULE_PIPELINE")
  {
    if m in MODULE_TO_STR then Some(MODULE_TO_STR[m]) else None
  }

  /** Printing an action: its name, or None where `map::at` throws. */
  function ActionToStr(a: int): (r: Option<string>)
    ensures r.Some? <==> a in {0, 1, 2, 3, 4, 5, 9999}
    ensures a == KAFKA_PRODUCE_PAYLOAD ==> r == Some("KAFKA_PRODUCE_PAYLOAD")
  {
    if a in ACTION_TO_STR then Some(ACTION_TO_STR[a]) else None
  }

  /** Different enumerators print differently, so a printed name identifies its value. */
  lemma PrintedNamesIdentify(m1: int, m2: int, a1: int, a2: int)
    ensures ModuleToStr(m1).Some? && ModuleToStr(m1) == ModuleToStr(m2) ==> m1 == m2
    ensures ActionToStr(a1).Some? && ActionToStr(a1) == ActionToStr(a2) ==> a1 == a2
  {
  }

  /** The dynamic class of an event, which `dynamic_cast` inspects. */
  datatype EventClass = BaseEventClass | ApplicationEventClass | PipelineEventClass | KafkaEventClass

  /** The three flags the mediator sets while it handles an event. */
  datatype Flags = Flags(accepted: bool, owned: bool, completed: bool)

  /** The flags after `end()`. */
  function EndFlags(f: Flags): (g: Flags)
    ensures !g.owned && g.completed && g.accepted == f.accepted
  {
    f.(owned := false, completed := true)
  }

  /** `end()` twice is `end()` once. */
  lemma EndIdempotent(f: Flags)
    ensures EndFlags(EndFlags(f)) == EndFlags(f)
  {
  }

  /**
   * `EventBase`. The derived classes add no behaviour beyond their
   * constructors; `KafkaEvent` also carries `_requested_uuid`, which is the
   * empty string on every other event.
   */
  class EventBase {
    const cls: EventClass
    var t: int
    var source: int
    var target: int
    var action: int
    var requestedUuid: string
    var accepted: bool
    var owned: bool
    var completed: bool

    function GetFlags(): Flags
      reads this
    {
      Flags(accepted, owned, completed)
    }

    /** The four values fixed at construction. */
    function Route(): (int, int, int, int)
      reads this
    {
      (t, action, source, target)
    }

    /** `EventBase()`. */
    constructor ()
      ensures cls == BaseEventClass && Route() == (NO_TYPE, NO_ACTION, 0, 0) && requestedUuid == ""
      ensures GetFlags() == Flags(false, false, false)
    {
      cls := BaseEventClass;
      t, source, target, action := 0, 0, 0, 0;
      requestedUuid := "";
      accepted, owned, completed := false, false, false;
    }

    /** `EventBase(Type type)`. */
    constructor OfType(eventType: int)
      ensures cls == BaseEventClass && Route() == (eventType, NO_ACTION, 0, 0) && requestedUuid == ""
      ensures GetFlags() == Flags(false, false, false)
    {
      cls := BaseEventClass;
      t, source, target, action := eventType, 0, 0, 0;
      requestedUuid := "";
      accepted, owned, completed := false, false, false;
    }

    /**
     * `EventBase(action, type, src = 0, dst = 0)`, called directly or as the
     * constructor a derived class inherits (`using EventBase::EventBase`);
     * `c` is the class the object is created as.
     */
    constructor Routed(c: EventClass, action: int, eventType: int, src: int, dst: int)
      ensures cls == c && Route() == (eventType, action, src, dst) && requestedUuid == ""
      ensures GetFlags() == Flags(false, false, false)
    {
      cls := c;
      this.action := action;
      t := eventType;
      source := src;
      target := dst;
      requestedUuid := "";
      accepted, owned, completed := false, false, false;
    }

    /** `ApplicationEvent(action, guint src = 0)`: the source is set only for a non-zero sender. */
    constructor Application(action: int, src: uint32)
      ensures cls == ApplicationEventClass && t == APPLICATION && this.action == action && target == 0
      ensures src > 0 ==> source == ToInt32(src)
      ensures src == 0 ==> source == 0
      ensures requestedUuid == "" && GetFlags() == Flags(false, false, false)
    {
      cls := ApplicationEventClass;
      t := APPLICATION;
      this.action := action;
      target := 0;
      source := if src > 0 then ToInt32(src) else 0;
      requestedUuid := "";
      accepted, owned, completed := false, false, false;
    }

    /** `KafkaEvent(action, uuid, guint src)`: an event for the producer. */
    constructor KafkaToProducer(action: int, uuid: string, src: uint32)
      ensures cls == KafkaEventClass && Route() == (KAFKA, action, ToInt32(src), MODULE_KAFKA)
      ensures requestedUuid == uuid && GetFlags() == Flags(false, false, false)
    {
      cls := KafkaEventClass;
      this.action := action;
      t := KAFKA;
      target := MODULE_KAFKA;
      requestedUuid := uuid;
      source := ToInt32(src);
      accepted, owned, completed := false, false, false;
    }

    /** `KafkaEvent(action)`: an event from the consumer, addressed to the pipeline. */
    constructor KafkaFromConsumer(action: int)
      ensures cls == KafkaEventClass && Route() == (KAFKA, action, 0, MODULE_PIPELINE)
      ensures requestedUuid == "" && GetFlags() == Flags(false, false, false)
    {
      cls := KafkaEventClass;
      this.action := action;
      t := KAFKA;
      target := MODULE_PIPELINE;
      source := 0;
      requestedUuid := "";
      accepted, owned, completed := false, false, false;
    }

    /** `PipelineEvent(action, uuid, src)`: the uuid and the source are not stored. */
    constructor Pipeline(action: int, uuid: string, src: int)
      ensures cls == PipelineEventClass && Route() == (PIPELINE, action, 0, MODULE_PIPELINE)
      ensures requestedUuid == "" && GetFlags() == Flags(false, false, false)
    {
      cls := PipelineEventClass;
      this.action := action;
      t := PIPELINE;
      target := MODULE_PIPELINE;
      source := 0;
      requestedUuid := "";
      accepted, owned, completed := false, false, false;
    }

    function EventType(): int reads this { t }
    function Source(): int reads this { source }
    function Action(): int reads this { action }
    function Accepted(): bool reads this { accepted }
    function Owned(): bool reads this { owned }
    function Completed(): bool reads this { completed }

    /** The mediator's clean-up rule: a completed event nobody owns is deleted. */
    predicate Released()
      reads this
    {
      completed && !owned
    }

    method Accept()
      modifies this`accepted
      ensures GetFlags() == old(GetFlags()).(accepted := true)
    {
      accepted := true;
    }

    method Ignore()
      modifies this`accepted
      ensures GetFlags() == old(GetFlags()).(accepted := false)
    {
      accepted := false;
    }

    method SetAccepted(b: bool)
      modifies this`accepted
      ensures GetFlags() == old(GetFlags()).(accepted := b) && Accepted() == b
    {
      accepted := b;
    }

    method Own()
      modifies this`owned
      ensures GetFlags() == old(GetFlags()).(owned := true)
    {
      owned := true;
    }

    method Free()
      modifies this`owned
      ensures GetFlags() == old(GetFlags()).(owned := false)
    {
      owned := false;
    }

    method SetOwned(b: bool)
      modifies this`owned
      ensures GetFlags() == old(GetFlags()).(owned := b) && Owned() == b
    {
      owned := b;
    }

    /** `end()`: release ownership and mark the event completed. */
    method End()
      modifies this`owned, this`completed
      ensures GetFlags() == EndFlags(old(GetFlags()))
      ensures Released()
    {
      Free();
      completed := true;
    }
  }
}
