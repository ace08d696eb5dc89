/**
 * The Kafka broker module: the producer queue other modules publish into,
 * the producer thread that drains it towards the Kafka server, the
 * connection check that (re)launches that thread, and the serialiser the
 * records are sent with. Connection and send outcomes are inputs; the
 * thread pool is the list of tasks it has been handed, in order.
 */
module Messaging {
  import opened Wrappers
  import opened Strings
  import opened Json
  import Events

  // ---------------------------------------------------------------------
  // njson_to_string
  // ---------------------------------------------------------------------

  /** What the serialiser writes for one member: a space, the key in quotes (not escaped), a colon and the value's dump. */
  function MemberText(key: string, value: Json): string
  {
    " \"" + key + "\":" + Dump(value)
  }

  function MemberTexts(members: seq<(string, Json)>): seq<string>
  {
    seq(|members|, i requires 0 <= i < |members| => MemberText(members[i].0, members[i].1))
  }

  /**
   * The text `njson_to_string` produces for an object: its members separated
   * by commas between braces. For an object without members the opening
   * brace is what the trailing-comma removal takes away, which leaves "}".
   * For an object with members it is what the source's loop writes: every
   * member followed by a comma, the last comma replaced by "}".
   */
  function Serialized(members: seq<(string, Json)>): (r: string)
    ensures members != [] ==>
      r == "{" + Terminated(MemberTexts(members))[..|Terminated(MemberTexts(members))| - 1] + "}"
  {
    if members == [] then "}"
    else
      TerminatedIsJoinedPlusComma(MemberTexts(members));
      "{" + JoinWith(",", MemberTexts(members)) + "}"
  }

  /** The parts, each followed by a comma. */
  function Terminated(parts: seq<string>): (r: string)
    ensures |r| >= |parts|
    decreases |parts|
  {
    if parts == [] then "" else Terminated(parts[..|parts| - 1]) + parts[|parts| - 1] + ","
  }

  lemma {:induction false} JoinWithSnoc(sep: string, parts: seq<string>, p: string)
    requires parts != []
    ensures JoinWith(sep, parts + [p]) == JoinWith(sep, parts) + sep + p
    decreases |parts|
  {
    if |parts| == 1 {
      assert parts + [p] == [parts[0], p];
    } else {
      assert (parts + [p])[1..] == parts[1..] + [p];
      JoinWithSnoc(sep, parts[1..], p);
    }
  }

  /** Writing every part with a comma after it is the comma-joined text plus one comma. */
  lemma {:induction false} TerminatedIsJoinedPlusComma(parts: seq<string>)
    requires parts != []
    ensures Terminated(parts) == JoinWith(",", parts) + ","
    decreases |parts|
  {
    var n := |parts| - 1;
    if n > 0 {
      TerminatedIsJoinedPlusComma(parts[..n]);
      JoinWithSnoc(",", parts[..n], parts[n]);
      assert parts[..n] + [parts[n]] == parts;
    }
  }

  /**
   * `njson_to_string` on an object: "{", then ` "key":value,` per member in
   * iteration order, then the last character dropped and "}" appended.
   */
  method NjsonToString(members: seq<(string, Json)>) returns (s: string)
    ensures s == Serialized(members)
  {
    s := "{";
    var i := 0;
    while i < |members|
      invariant 0 <= i <= |members|
      invariant s == "{" + Terminated(MemberTexts(members[..i]))
    {
      assert MemberTexts(members[..i + 1])[..i] == MemberTexts(members[..i]);
      s := s + MemberText(members[i].0, members[i].1) + ",";
      i := i + 1;
    }
    assert members[..i] == members;
    ghost var t := Terminated(MemberTexts(members));
    if members != [] {
      assert s[..|s| - 1] == "{" + t[..|t| - 1];
    }
    s := s[..|s| - 1];
    s := s + "}";
  }

  /** A single member is written between braces, after one space. */
  lemma SerializedSingle(key: string, value: Json)
    ensures Serialized([(key, value)]) == "{ \"" + key + "\":" + Dump(value) + "}"
  {
    assert MemberTexts([(key, value)]) == [MemberText(key, value)];
  }

  /** Every serialised object ends in "}", and only the empty one is "}" alone. */
  lemma SerializedShape(members: seq<(string, Json)>)
    ensures var s := Serialized(members); |s| > 0 && s[|s| - 1] == '}'
    ensures Serialized(members) == "}" <==> members == []
  {
  }

  // ---------------------------------------------------------------------
  // set_configs
  // ---------------------------------------------------------------------

  /** The checks `set_configs` makes: a string topic and server address, and a boolean enable flag. */
  predicate AcceptsKafkaConf(conf: Json)
  {
    Get(conf, "topic").Str? && Get(conf, "kafka_server_ip").Str? && Get(conf, "enable").Bool?
  }

  /** An accepted section is an object, so the empty document is refused. */
  lemma AcceptedKafkaConfIsObject(conf: Json)
    requires AcceptsKafkaConf(conf)
    ensures conf.Obj? && !IsEmpty(conf)
  {
    assert Contains(conf, "topic");
    ContainsMeansNonEmpty(conf, "topic");
  }

  /** The topic the producer settings always receive, whatever the section says. */
  const PRODUCER_TOPIC: string := "test"

  // ---------------------------------------------------------------------
  // The producer thread, as a state machine
  // ---------------------------------------------------------------------

  /** A task handed to the broker's thread pool. */
  datatype Task = ValidateConnection | PollProducer

  /** A record handed to the Kafka producer: the topic and the serialised payload. */
  datatype Sent = Sent(topic: string, value: string)

  /** What the producer thread reads and writes: its run flag, the queue, what it has sent, the pool's tasks. */
  datatype ProducerState = ProducerState(run: bool, queue: seq<Json>, sent: seq<Sent>, tasks: seq<Task>)

  /** The record sent for a payload that has a string "topic". */
  function SentOf(payload: Json): Sent
    requires Get(payload, "topic").Str?
  {
    Sent(Get(payload, "topic").s, Serialized(payload.members))
  }

  /**
   * One pass of `_poll_producer`'s loop. A stopped thread does nothing; an
   * empty queue is polled again; otherwise the front is popped and dropped
   * when it has no "topic", sent when its topic is a string and the send
   * succeeds, and else the thread stops and schedules a new connection check.
   */
  function ProducerStepOf(st: ProducerState, sendOk: bool): (r: ProducerState)
    ensures st.sent <= r.sent && |r.sent| <= |st.sent| + 1
    ensures |r.queue| + |r.sent| <= |st.queue| + |st.sent|
    ensures r.run ==> st.run
    ensures r.tasks == if st.run && !r.run then st.tasks + [ValidateConnection] else st.tasks
  {
    if !st.run || st.queue == [] then st
    else
      var payload := st.queue[0];
      if !Contains(payload, "topic") then st.(queue := st.queue[1..])
      else if !Get(payload, "topic").Str? || !sendOk then
        st.(run := false, queue := st.queue[1..], tasks := st.tasks + [ValidateConnection])
      else st.(queue := st.queue[1..], sent := st.sent + [SentOf(payload)])
  }

  /** Consecutive passes, one per send outcome. */
  function ProducerSteps(st: ProducerState, sendOks: seq<bool>): (r: ProducerState)
    ensures st.sent <= r.sent
    ensures r.run ==> st.run
    decreases |sendOks|
  {
    if sendOks == [] then st else ProducerSteps(ProducerStepOf(st, sendOks[0]), sendOks[1..])
  }

  /** A producer step on an empty queue changes nothing; on a non-empty one it removes exactly the front. */
  lemma ProducerStepPops(st: ProducerState, sendOk: bool)
    ensures st.queue == [] ==> ProducerStepOf(st, sendOk) == st
    ensures st.run && st.queue != [] ==> ProducerStepOf(st, sendOk).queue == st.queue[1..]
    ensures st.queue != [] && !Contains(st.queue[0], "topic") ==> ProducerStepOf(st, sendOk).sent == st.sent
  {
  }

  /**
   * A payload with a string topic that is sent successfully goes out under
   * that topic, serialised; in every other case nothing is sent.
   */
  lemma ProducerStepSends(st: ProducerState, sendOk: bool)
    requires st.run && st.queue != []
    ensures Get(st.queue[0], "topic").Str? && sendOk ==>
      ProducerStepOf(st, sendOk).sent == st.sent + [Sent(Get(st.queue[0], "topic").s, Serialized(st.queue[0].members))]
    ensures !(Get(st.queue[0], "topic").Str? && sendOk) ==> ProducerStepOf(st, sendOk).sent == st.sent
  {
  }

  /** A failed send stops the thread and schedules exactly one connection check. */
  lemma ProducerStepFailure(st: ProducerState)
    requires st.run && st.queue != [] && Contains(st.queue[0], "topic")
    ensures var after := ProducerStepOf(st, false);
      !after.run && after.tasks == st.tasks + [ValidateConnection] && after.sent == st.sent
  {
  }

  /** A stopped producer stays stopped and touches nothing. */
  lemma {:induction false} StoppedProducerIdle(st: ProducerState, sendOks: seq<bool>)
    requires !st.run
    ensures ProducerSteps(st, sendOks) == st
    decreases |sendOks|
  {
    if sendOks != [] {
      StoppedProducerIdle(st, sendOks[1..]);
    }
  }

  /** Every payload of the queue has a string topic. */
  predicate AllTopics(queue: seq<Json>)
  {
    forall i :: 0 <= i < |queue| ==> Get(queue[i], "topic").Str?
  }

  /** The records sent for a queue of payloads, in queue order. */
  function SentAll(queue: seq<Json>): seq<Sent>
    requires AllTopics(queue)
  {
    seq(|queue|, i requires 0 <= i < |queue| => SentOf(queue[i]))
  }

  /**
   * A running producer whose payloads all carry a string topic, given one
   * successful send per payload, delivers the whole queue in FIFO order and
   * keeps running.
   */
  lemma {:induction false} ProducerDrains(st: ProducerState, sendOks: seq<bool>)
    requires st.run && AllTopics(st.queue)
    requires |sendOks| == |st.queue| && forall i :: 0 <= i < |sendOks| ==> sendOks[i]
    ensures ProducerSteps(st, sendOks) == st.(queue := [], sent := st.sent + SentAll(st.queue))
    decreases |sendOks|
  {
    if sendOks != [] {
      var next := st.(queue := st.queue[1..], sent := st.sent + [SentOf(st.queue[0])]);
      DeliverFront(st, sendOks);
      ProducerDrains(next, sendOks[1..]);
      assert next.sent + SentAll(next.queue) == st.sent + SentAll(st.queue);
    }
  }

  /** The first successful pass of a draining producer sends the front payload. */
  lemma DeliverFront(st: ProducerState, sendOks: seq<bool>)
    requires st.run && AllTopics(st.queue) && st.queue != []
    requires |sendOks| == |st.queue| && forall i :: 0 <= i < |sendOks| ==> sendOks[i]
    ensures AllTopics(st.queue[1..])
    ensures SentAll(st.queue) == [SentOf(st.queue[0])] + SentAll(st.queue[1..])
    ensures ProducerSteps(st, sendOks) ==
      ProducerSteps(st.(queue := st.queue[1..], sent := st.sent + [SentOf(st.queue[0])]), sendOks[1..])
  {
    ProducerStepDelivers(st);
    SentAllCons(st.queue);
  }

  lemma ProducerStepDelivers(st: ProducerState)
    requires st.run && st.queue != [] && Get(st.queue[0], "topic").Str?
    ensures ProducerStepOf(st, true) == st.(queue := st.queue[1..], sent := st.sent + [SentOf(st.queue[0])])
  {
    assert Contains(st.queue[0], "topic");
  }

  lemma SentAllCons(queue: seq<Json>)
    requires queue != [] && AllTopics(queue)
    ensures AllTopics(queue[1..])
    ensures SentAll(queue) == [SentOf(queue[0])] + SentAll(queue[1..])
  {
    assert forall i :: 0 <= i < |queue| - 1 ==> queue[1..][i] == queue[i + 1];
  }

  /**
   * `stop` after the given sleep intervals, in each of which the producer
   * thread makes the given passes: the queue is checked after every interval
   * and the call returns, clearing the run flag, at the first empty check.
   * The second component says whether it returned.
   */
  function StopFrom(st: ProducerState, intervals: seq<seq<bool>>): (r: (ProducerState, bool))
    ensures st.sent <= r.0.sent
    ensures !r.1 && intervals != [] ==> r.0.queue != []
    decreases |intervals|
  {
    if intervals == [] then (st, false)
    else
      var after := ProducerSteps(st, intervals[0]);
      if after.queue == [] then (after.(run := false), true) else StopFrom(after, intervals[1..])
  }

  /** When `stop` returns, the queue is empty and the producer is off. */
  lemma {:induction false} StopReturnsDrained(st: ProducerState, intervals: seq<seq<bool>>)
    requires StopFrom(st, intervals).1
    ensures StopFrom(st, intervals).0.queue == [] && !StopFrom(st, intervals).0.run
    decreases |intervals|
  {
    if intervals != [] {
      var after := ProducerSteps(st, intervals[0]);
      if after.queue != [] {
        StopReturnsDrained(after, intervals[1..]);
      }
    }
  }

  /** With the producer thread already stopped and payloads left, `stop` never returns. */
  lemma {:induction false} StopBlocksWithoutProducer(st: ProducerState, intervals: seq<seq<bool>>)
    requires !st.run && st.queue != []
    ensures !StopFrom(st, intervals).1
    decreases |intervals|
  {
    if intervals != [] {
      StoppedProducerIdle(st, intervals[0]);
      StopBlocksWithoutProducer(st, intervals[1..]);
    }
  }

  /** With a healthy producer, one interval in which every payload is sent lets `stop` return having delivered them all. */
  lemma StopAfterDelivery(st: ProducerState, sendOks: seq<bool>, rest: seq<seq<bool>>)
    requires st.run && AllTopics(st.queue)
    requires |sendOks| == |st.queue| && forall i :: 0 <= i < |sendOks| ==> sendOks[i]
    ensures StopFrom(st, [sendOks] + rest) == (st.(run := false, queue := [], sent := st.sent + SentAll(st.queue)), true)
  {
    ProducerDrains(st, sendOks);
  }

  /** The index of the first successful topic listing, if any. */
  function FirstSuccess(listings: seq<bool>): (r: Option<nat>)
    ensures r.Some? ==> r.value < |listings| && listings[r.value]
    ensures r.Some? ==> forall i :: 0 <= i < r.value ==> !listings[i]
    ensures r.None? ==> forall i :: 0 <= i < |listings| ==> !listings[i]
    decreases |listings|
  {
    if listings == [] then None
    else if listings[0] then Some(0)
    else match FirstSuccess(listings[1..])
      case None => None
      case Some(k) => Some(k + 1)
  }

  /** How `_validate_broker_connection` ends. */
  datatype ValidateOutcome =
    | Disabled               // the producer is not enabled
    | StillRetrying          // no listing has succeeded yet: the retry loop is still running
    | Connected(attempts: nat)

  // ---------------------------------------------------------------------
  // The broker
  // ---------------------------------------------------------------------

  class KafkaBroker {
    const moduleId: int := Events.MODULE_KAFKA
    var producerTopic: string
    var kafkaServerIp: string
    var producerEnable: bool
    var brokerConnected: bool
    var producerRun: bool
    var producerQ: seq<Json>
    var sent: seq<Sent>
    var tasks: seq<Task>

    /** The part of the broker the producer thread works on. */
    function Producer(): ProducerState
      reads this
    {
      ProducerState(producerRun, producerQ, sent, tasks)
    }

    constructor ()
      ensures !brokerConnected && !producerRun && !producerEnable
      ensures producerQ == [] && sent == [] && tasks == []
      ensures producerTopic == "" && kafkaServerIp == ""
    {
      producerTopic := "";
      kafkaServerIp := "";
      producerEnable := false;
      brokerConnected := false;
      producerRun := false;
      producerQ := [];
      sent := [];
      tasks := [];
    }

    /** `get_run_state`: whether the producer thread is running. */
    function GetRunState(): (r: bool)
      reads this
      ensures r <==> Producer().run
    {
      producerRun
    }

    /**
     * `set_configs`: check the types, then keep the server address and the
     * enable flag; the producer topic is always "test".
     */
    method SetConfigs(conf: Json) returns (ok: bool)
      modifies this`producerTopic, this`kafkaServerIp, this`producerEnable
      ensures ok <==> AcceptsKafkaConf(conf)
      ensures ok ==> producerTopic == PRODUCER_TOPIC && kafkaServerIp == Get(conf, "kafka_server_ip").s && producerEnable == Get(conf, "enable").b
      ensures !ok ==> producerTopic == old(producerTopic) && kafkaServerIp == old(kafkaServerIp) && producerEnable == old(producerEnable)
    {
      if !Get(conf, "topic").Str? {
        return false;
      }
      if !Get(conf, "kafka_server_ip").Str? {
        return false;
      }
      if !Get(conf, "enable").Bool? {
        return false;
      }
      producerTopic := PRODUCER_TOPIC;
      kafkaServerIp := Get(conf, "kafka_server_ip").s;
      producerEnable := Get(conf, "enable").b;
      ok := true;
    }

    /** `publish`: queue one payload at the back. */
    method Publish(payload: Json)
      modifies this`producerQ
      ensures producerQ == old(producerQ) + [payload]
    {
      producerQ := producerQ + [payload];
    }

    /** `start`: schedule the connection check. */
    method Start()
      modifies this`tasks
      ensures tasks == old(tasks) + [ValidateConnection]
    {
      tasks := tasks + [ValidateConnection];
    }

    /**
     * `_validate_broker_connection`, given the outcomes of successive topic
     * listings: nothing when disabled; otherwise retry until one succeeds,
     * then launch the producer unless it is already running.
     */
    method ValidateBrokerConnection(listings: seq<bool>) returns (outcome: ValidateOutcome)
      modifies this`brokerConnected, this`tasks
      ensures !producerEnable ==> outcome == Disabled && brokerConnected == old(brokerConnected) && tasks == old(tasks)
      ensures producerEnable && FirstSuccess(listings).None? ==> outcome == StillRetrying && !brokerConnected && tasks == old(tasks)
      ensures producerEnable && FirstSuccess(listings).Some? ==>
        && outcome == Connected(FirstSuccess(listings).value + 1)
        && brokerConnected
        && tasks == old(tasks) + (if producerRun then [] else [PollProducer])
    {
      if !producerEnable {
        return Disabled;
      }
      brokerConnected := false;
      var i := 0;
      while !brokerConnected && i < |listings|
        invariant 0 <= i <= |listings|
        invariant !brokerConnected ==> forall j :: 0 <= j < i ==> !listings[j]
        invariant brokerConnected ==> 0 < i && listings[i - 1] && forall j :: 0 <= j < i - 1 ==> !listings[j]
        invariant tasks == old(tasks)
      {
        if listings[i] {
          brokerConnected := true;
        }
        i := i + 1;
      }
      if !brokerConnected {
        return StillRetrying;
      }
      if !producerRun {
        tasks := tasks + [PollProducer];
      }
      outcome := Connected(i);
    }

    /** One pass of the producer loop. */
    method ProducerStep(sendOk: bool)
      modifies this`producerRun, this`producerQ, this`sent, this`tasks
      ensures Producer() == ProducerStepOf(old(Producer()), sendOk)
    {
      if !producerRun || producerQ == [] {
        return;
      }
      var payload := producerQ[0];
      producerQ := producerQ[1..];
      if !Contains(payload, "topic") {
        return;
      }
      var topic := Get(payload, "topic");
      if !topic.Str? || !sendOk {
        producerRun := false;
        tasks := tasks + [ValidateConnection];
        return;
      }
      var value := NjsonToString(payload.members);
      sent := sent + [Sent(topic.s, value)];
    }

    /**
     * `_poll_producer` for as many passes as there are send outcomes: set the
     * run flag, then loop while it stays set.
     */
    method PollProducerLoop(sendOks: seq<bool>)
      modifies this`producerRun, this`producerQ, this`sent, this`tasks
      ensures Producer() == ProducerSteps(old(Producer()).(run := true), sendOks)
    {
      producerRun := true;
      var i := 0;
      while i < |sendOks| && producerRun
        invariant 0 <= i <= |sendOks|
        invariant ProducerSteps(old(Producer()).(run := true), sendOks) == ProducerSteps(Producer(), sendOks[i..])
      {
        assert sendOks[i..][1..] == sendOks[i + 1..];
        ProducerStep(sendOks[i]);
        i := i + 1;
      }
      if !producerRun {
        StoppedProducerIdle(Producer(), sendOks[i..]);
      }
    }

    /** The producer passes made while `stop` sleeps through one interval. */
    method ProducerPasses(sendOks: seq<bool>)
      modifies this`producerRun, this`producerQ, this`sent, this`tasks
      ensures Producer() == ProducerSteps(old(Producer()), sendOks)
    {
      var i := 0;
      while i < |sendOks|
        invariant 0 <= i <= |sendOks|
        invariant ProducerSteps(old(Producer()), sendOks) == ProducerSteps(Producer(), sendOks[i..])
      {
        assert sendOks[i..][1..] == sendOks[i + 1..];
        ProducerStep(sendOks[i]);
        i := i + 1;
      }
    }

    /**
     * `stop`: sleep, check the queue, and repeat until it is empty; then
     * clear the run flag. The intervals say what the producer does during
     * each sleep; `returned` is false while the call is still waiting.
     */
    method Stop(intervals: seq<seq<bool>>) returns (returned: bool)
      modifies this`producerRun, this`producerQ, this`sent, this`tasks
      ensures (Producer(), returned) == StopFrom(old(Producer()), intervals)
    {
      returned := false;
      var i := 0;
      while !returned && i < |intervals|
        invariant 0 <= i <= |intervals|
        invariant !returned ==> StopFrom(old(Producer()), intervals) == StopFrom(Producer(), intervals[i..])
        invariant returned ==> StopFrom(old(Producer()), intervals) == (Producer().(run := false), true)
      {
        assert intervals[i..][0] == intervals[i] && intervals[i..][1..] == intervals[i + 1..];
        ProducerPasses(intervals[i]);
        if |producerQ| == 0 {
          returned := true;
        }
        i := i + 1;
      }
      if returned {
        producerRun := false;
      }
    }
  }
}
