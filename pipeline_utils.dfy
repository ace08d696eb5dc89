/**
 * Pipeline utilities: the pad-link status messages, the bus message
 * handler acting on `BusStruct`, and the JSON list checks the pipeline
 * configuration validator relies on.
 */
module PipelineUtils {
  import opened Strings
  import opened Json

  // ---------------------------------------------------------------------
  // get_link_status
  // ---------------------------------------------------------------------

  const UNKNOWN_LINK_STATUS: string := "ERROR: get_link_status() doesn't recognize status_code"

  /** The messages for `GstPadLinkReturn` 0, -1, ..., -6, indexed by the negated code. */
  const LINK_MESSAGES: seq<string> := [
    "GST_PAD_LINK_OK (0) – link succeeded",
    "GST_PAD_LINK_WRONG_HIERARCHY (-1) – pads have no common grandparent",
    "GST_PAD_LINK_WAS_LINKED (-2) – pad was already linked",
    "GST_PAD_LINK_WRONG_DIRECTION (-3) – pads have wrong direction",
    "GST_PAD_LINK_NOFORMAT (-4) – pads do not have common format",
    "GST_PAD_LINK_NOSCHED (-5) – pads cannot cooperate in scheduling",
    "GST_PAD_LINK_REFUSED (-6) – refused for some reason"
  ]

  /**
   * `get_link_status`: the human-readable text of a pad-link return code:
   * each known code has its table message, and every other code the
   * fallback text.
   */
  function GetLinkStatus(statusCode: int): (r: string)
    ensures -6 <= statusCode <= 0 ==> r == LINK_MESSAGES[-statusCode]
    ensures !(-6 <= statusCode <= 0) ==> r == UNKNOWN_LINK_STATUS
  {
    match statusCode
    case 0 => "GST_PAD_LINK_OK (0) – link succeeded"
    case -1 => "GST_PAD_LINK_WRONG_HIERARCHY (-1) – pads have no common grandparent"
    case -2 => "GST_PAD_LINK_WAS_LINKED (-2) – pad was already linked"
    case -3 => "GST_PAD_LINK_WRONG_DIRECTION (-3) – pads have wrong direction"
    case -4 => "GST_PAD_LINK_NOFORMAT (-4) – pads do not have common format"
    case -5 => "GST_PAD_LINK_NOSCHED (-5) – pads cannot cooperate in scheduling"
    case -6 => "GST_PAD_LINK_REFUSED (-6) – refused for some reason"
    case _ => UNKNOWN_LINK_STATUS
  }

  /** The known codes have pairwise distinct messages, none of them the fallback, so the text identifies the code. */
  lemma LinkStatusIdentifies(c1: int, c2: int)
    requires -6 <= c1 <= 0
    ensures GetLinkStatus(c1) != UNKNOWN_LINK_STATUS
    ensures GetLinkStatus(c1) == GetLinkStatus(c2) ==> c1 == c2
  {
  }

  // ---------------------------------------------------------------------
  // bus_call
  // ---------------------------------------------------------------------

  /** The bus messages `bus_call` tells apart; every other type is `OtherMessage`. */
  datatype BusMessage = EndOfStream | ErrorMessage | ElementMessage | NewClock | OtherMessage

  /** The data `bus_call` acts on: the counters and whether the main loop was told to quit. */
  datatype BusState = BusState(timeoutCounter: int, timeoutCounterMax: int, loopQuit: bool)

  /**
   * One `bus_call`: end of stream and errors quit the main loop; an element
   * message falls through into the new-clock case, and both reset the
   * timeout counter; anything else changes nothing.
   */
  function BusStep(st: BusState, msg: BusMessage): (r: BusState)
    ensures r.timeoutCounterMax == st.timeoutCounterMax
    ensures r.loopQuit <==> st.loopQuit || QuitsLoop(msg)
    ensures r.timeoutCounter == if ResetsCounter(msg) then 0 else st.timeoutCounter
  {
    match msg
    case EndOfStream => st.(loopQuit := true)
    case ErrorMessage => st.(loopQuit := true)
    case ElementMessage => st.(timeoutCounter := 0)
    case NewClock => st.(timeoutCounter := 0)
    case OtherMessage => st
  }

  /** The bus handled message by message, in the order they arrive. */
  function BusSteps(st: BusState, msgs: seq<BusMessage>): BusState
    decreases |msgs|
  {
    if msgs == [] then st else BusSteps(BusStep(st, msgs[0]), msgs[1..])
  }

  predicate QuitsLoop(msg: BusMessage) { msg == EndOfStream || msg == ErrorMessage }

  predicate ResetsCounter(msg: BusMessage) { msg == ElementMessage || msg == NewClock }

  /** The main loop has been told to quit exactly when it was already, or an end of stream or an error arrived. */
  lemma {:induction false} BusQuitsOnEnd(st: BusState, msgs: seq<BusMessage>)
    ensures BusSteps(st, msgs).loopQuit <==> st.loopQuit || exists i :: 0 <= i < |msgs| && QuitsLoop(msgs[i])
    decreases |msgs|
  {
    if msgs != [] {
      BusQuitsOnEnd(BusStep(st, msgs[0]), msgs[1..]);
      if exists i :: 0 <= i < |msgs| && QuitsLoop(msgs[i]) {
        var i :| 0 <= i < |msgs| && QuitsLoop(msgs[i]);
        if i > 0 {
          assert QuitsLoop(msgs[1..][i - 1]);
        }
      }
      if exists i :: 0 <= i < |msgs[1..]| && QuitsLoop(msgs[1..][i]) {
        var i :| 0 <= i < |msgs[1..]| && QuitsLoop(msgs[1..][i]);
        assert QuitsLoop(msgs[i + 1]);
      }
    }
  }

  /**
   * The timeout counter is reset once any element or new-clock message has
   * arrived and is otherwise untouched; the maximum never changes.
   */
  lemma {:induction false} BusCounterReset(st: BusState, msgs: seq<BusMessage>)
    ensures BusSteps(st, msgs).timeoutCounterMax == st.timeoutCounterMax
    ensures (exists i :: 0 <= i < |msgs| && ResetsCounter(msgs[i])) ==> BusSteps(st, msgs).timeoutCounter == 0
    ensures (forall i :: 0 <= i < |msgs| ==> !ResetsCounter(msgs[i])) ==> BusSteps(st, msgs).timeoutCounter == st.timeoutCounter
    decreases |msgs|
  {
    if msgs != [] {
      BusCounterReset(BusStep(st, msgs[0]), msgs[1..]);
      if ResetsCounter(msgs[0]) {
        BusCounterStaysZero(BusStep(st, msgs[0]), msgs[1..]);
      } else if exists i :: 0 <= i < |msgs| && ResetsCounter(msgs[i]) {
        var i :| 0 <= i < |msgs| && ResetsCounter(msgs[i]);
        assert ResetsCounter(msgs[1..][i - 1]);
      }
      if forall i :: 0 <= i < |msgs| ==> !ResetsCounter(msgs[i]) {
        assert forall i :: 0 <= i < |msgs[1..]| ==> msgs[1..][i] == msgs[i + 1];
      }
    }
  }

  /** A counter at zero stays at zero, since no message raises it. */
  lemma {:induction false} BusCounterStaysZero(st: BusState, msgs: seq<BusMessage>)
    requires st.timeoutCounter == 0
    ensures BusSteps(st, msgs).timeoutCounter == 0
    decreases |msgs|
  {
    if msgs != [] {
      BusCounterStaysZero(BusStep(st, msgs[0]), msgs[1..]);
    }
  }

  /** `BusStruct`: the data handed to the bus watch. The main loop is modelled by whether it was told to quit. */
  class BusStruct {
    var timeoutCounter: int
    var timeoutCounterMax: int
    var loopQuit: bool

    function State(): BusState
      reads this
    {
      BusState(timeoutCounter, timeoutCounterMax, loopQuit)
    }

    /** The defaults: no inactive cycles counted, and at most 5 of them. */
    constructor ()
      ensures State() == BusState(0, 5, false)
    {
      timeoutCounter, timeoutCounterMax, loopQuit := 0, 5, false;
    }

    /** The bus data the pipeline assigns over the defaults: a running loop and a limit of 50 inactive cycles. */
    method SetForPipeline()
      modifies this
      ensures State() == BusState(0, 50, false)
    {
      timeoutCounter, timeoutCounterMax, loopQuit := 0, 50, false;
    }

    /** `bus_call`: handles one message and always asks to stay on the bus. */
    method BusCall(msg: BusMessage) returns (keepWatching: bool)
      modifies this
      ensures State() == BusStep(old(State()), msg)
      ensures keepWatching
    {
      match msg {
        case EndOfStream => loopQuit := true;
        case ErrorMessage => loopQuit := true;
        case ElementMessage => timeoutCounter := 0;
        case NewClock => timeoutCounter := 0;
        case OtherMessage =>
      }
      keepWatching := true;
    }
  }

  // ---------------------------------------------------------------------
  // JSON list checks used by the configuration validator
  // ---------------------------------------------------------------------

  /** `areAllElementsStrings`: every element of the array is a string. */
  predicate AreAllElementsStrings(j: Json)
  {
    j.Arr? && AllStrings(j.items)
  }

  /** `areAllElementsUniqueStrings`: the elements are pairwise distinct. */
  predicate AreAllElementsUniqueStrings(j: Json)
  {
    j.Arr? && forall i, k :: 0 <= i < k < |j.items| ==> j.items[i] != j.items[k]
  }

  /** `checkStringEndsWith`: a string with that suffix; a null element fails. */
  predicate CheckStringEndsWith(j: Json, suffix: string)
  {
    j.Str? && EndsWith(j.s, suffix)
  }

  /** `checkStringStartsWith`: a string with that prefix; a null element fails. */
  predicate CheckStringStartsWith(j: Json, prefix: string)
  {
    j.Str? && StartsWith(j.s, prefix)
  }
}
