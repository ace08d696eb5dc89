/**
 * The YAML pipeline description helpers: the number recognisers, the
 * `key=value` property splitting and value classification, and the
 * linking decisions made for each element. GStreamer calls are inputs
 * (the pad-link status, whether a static link succeeded).
 */
module YamlParser {
  import opened Wrappers
  import opened Numeric
  import opened Strings

  /** A YAML node as yaml-cpp reads it. */
  datatype Yaml =
    | YNull
    | YScalar(text: string)
    | YSeq(items: seq<Yaml>)
    | YMap(entries: seq<(string, Yaml)>)

  /** `node[key]` on a map: the first entry with that key; None where the node is undefined. */
  function YGet(node: Yaml, key: string): (r: Option<Yaml>)
    decreases node
  {
    match node
    case YMap(entries) => YLookup(entries, key)
    case _ => None
  }

  function YLookup(entries: seq<(string, Yaml)>, key: string): Option<Yaml>
  {
    if entries == [] then None else if entries[0].0 == key then Some(entries[0].1) else YLookup(entries[1..], key)
  }

  /**
   * `as<std::string>()`: a scalar's text, and "null" for a null node; None
   * where yaml-cpp throws (an undefined node, a sequence or a map).
   */
  function AsString(node: Option<Yaml>): (r: Option<string>)
    ensures r.Some? <==> node.Some? && (node.value.YScalar? || node.value.YNull?)
  {
    match node
    case Some(YScalar(t)) => Some(t)
    case Some(YNull) => Some("null")
    case _ => None
  }

  /** An entry that reads as a string. */
  predicate IsText(entry: Yaml) { entry.YScalar? || entry.YNull? }

  /** The text of an entry that reads as a string. */
  function Text(entry: Yaml): (t: string)
    requires IsText(entry)
    ensures AsString(Some(entry)) == Some(t)
  {
    if entry.YNull? then "null" else entry.text
  }

  /** `node[key].as<std::string>()`. */
  function StringField(node: Option<Yaml>, key: string): Option<string>
  {
    match node
    case Some(n) => AsString(YGet(n, key))
    case None => None
  }

  // ---------------------------------------------------------------------
  // isInt and isFloat
  // ---------------------------------------------------------------------

  /** `isInt`: the pattern `^[0-9]+$`. Every such string is also an `isFloat` string. */
  predicate IsInt(s: string)
    ensures IsInt(s) ==> IsFloat(s)
  {
    if |s| > 0 && AllDigits(s) then
      assert IsDigit(s[0]) && DigitsIn(s, 0, |s|);
      RunEndExact(s, 0, |s|);
      true
    else false
  }

  /** Every character of `s` from `i` up to `j` is a digit. */
  predicate DigitsIn(s: string, i: int, j: int)
    requires 0 <= i <= j <= |s|
  {
    forall k :: i <= k < j ==> IsDigit(s[k])
  }

  predicate IsSign(c: char) { c == '+' || c == '-' }

  /** Where the run of digits starting at `i` ends. */
  function RunEnd(s: string, i: int): (j: int)
    requires 0 <= i <= |s|
    ensures i <= j <= |s| && DigitsIn(s, i, j)
    ensures j < |s| ==> !IsDigit(s[j])
    decreases |s| - i
  {
    if i < |s| && IsDigit(s[i]) then RunEnd(s, i + 1) else i
  }

  /** A digit run is determined by where its first non-digit is. */
  lemma {:induction false} RunEndExact(s: string, i: int, j: int)
    requires 0 <= i <= j <= |s| && DigitsIn(s, i, j)
    requires j < |s| ==> !IsDigit(s[j])
    ensures RunEnd(s, i) == j
    decreases j - i
  {
    if i < j {
      RunEndExact(s, i + 1, j);
    }
  }

  /** The optional exponent `([eE][-+]?[0-9]+)?` occupies exactly `s[d..]`. */
  predicate IsExponentAt(s: string, d: int)
    requires 0 <= d <= |s|
  {
    d == |s| ||
    ((s[d] == 'e' || s[d] == 'E') &&
      ((d + 1 < |s| && DigitsIn(s, d + 1, |s|)) ||
       (d + 2 < |s| && IsSign(s[d + 1]) && DigitsIn(s, d + 2, |s|))))
  }

  /**
   * `isFloat`, as a left-to-right scan: an optional sign, a digit run, then
   * either a '.' followed by a non-empty digit run or (without the '.') a
   * non-empty first run, then the optional exponent up to the end.
   */
  predicate IsFloat(s: string)
    ensures IsFloat(s) ==> |s| > 0 && IsDigit(s[|s| - 1])
  {
    var a := if |s| > 0 && IsSign(s[0]) then 1 else 0;
    var b := RunEnd(s, a);
    if b < |s| && s[b] == '.' then
      var d := RunEnd(s, b + 1);
      d > b + 1 && IsExponentAt(s, d)
    else b > a && IsExponentAt(s, b)
  }

  /**
   * The regular expression `^[-+]?[0-9]*\.?[0-9]+([eE][-+]?[0-9]+)?$` read
   * with its groups at explicit positions: sign `s[..a]`, digits `s[a..b]`,
   * optional point `s[b..c]`, digits `s[c..d]` (at least one), exponent `s[d..]`.
   */
  predicate FloatPatternAt(s: string, a: int, b: int, c: int, d: int)
  {
    && 0 <= a <= b <= c < d <= |s|
    && (a == 0 || (a == 1 && IsSign(s[0])))
    && DigitsIn(s, a, b)
    && (c == b || (c == b + 1 && s[b] == '.'))
    && DigitsIn(s, c, d)
    && IsExponentAt(s, d)
  }

  ghost predicate MatchesFloatPattern(s: string)
  {
    exists a, b, c, d :: FloatPatternAt(s, a, b, c, d)
  }

  /** The scan accepts exactly the strings the regular expression matches. */
  lemma FloatScanMatchesPattern(s: string)
    ensures IsFloat(s) <==> MatchesFloatPattern(s)
  {
    if IsFloat(s) {
      FloatScanHasPattern(s);
    }
    if MatchesFloatPattern(s) {
      var a, b, c, d :| FloatPatternAt(s, a, b, c, d);
      FloatPatternIsScanned(s, a, b, c, d);
    }
  }

  lemma FloatScanHasPattern(s: string)
    requires IsFloat(s)
    ensures MatchesFloatPattern(s)
  {
    var a := if |s| > 0 && IsSign(s[0]) then 1 else 0;
    var b := RunEnd(s, a);
    if b < |s| && s[b] == '.' {
      var d := RunEnd(s, b + 1);
      assert FloatPatternAt(s, a, b, b + 1, d);
    } else {
      assert FloatPatternAt(s, a, a, a, b);
    }
  }

  lemma FloatPatternIsScanned(s: string, a: int, b: int, c: int, d: int)
    requires FloatPatternAt(s, a, b, c, d)
    ensures IsFloat(s)
  {
    var a' := if |s| > 0 && IsSign(s[0]) then 1 else 0;
    if a == 0 && |s| > 0 {
      // without a sign the pattern starts with a digit or the point, neither of which is a sign
      assert IsDigit(s[0]) || s[0] == '.' by {
        if b > 0 {
          assert IsDigit(s[0]);
        } else if c == 0 {
          assert IsDigit(s[c]);
        }
      }
    }
    assert a == a';
    assert d < |s| ==> !IsDigit(s[d]);
    if c == b {
      assert DigitsIn(s, a, d) by {
        forall k | a <= k < d ensures IsDigit(s[k]) {
          if k >= b {
            assert c <= k < d;
          }
        }
      }
      RunEndExact(s, a, d);
    } else {
      RunEndExact(s, a, b);
      RunEndExact(s, c, d);
    }
  }

  /** A leading point is accepted, a trailing one is not. */
  lemma FloatPointPlacement()
    ensures IsFloat(".5")
    ensures !IsFloat("1.")
  {
    RunEndExact(".5", 0, 0);
    RunEndExact(".5", 1, 2);
    RunEndExact("1.", 0, 1);
    RunEndExact("1.", 2, 2);
  }

  // ---------------------------------------------------------------------
  // key=value properties
  // ---------------------------------------------------------------------

  /** The first position of `c` in `s`. */
  function IndexOf(s: string, c: char): (r: Option<nat>)
    ensures r.Some? ==> r.value < |s| && s[r.value] == c && c !in s[..r.value]
    ensures r.None? ==> c !in s
    decreases |s|
  {
    if s == [] then None
    else if s[0] == c then Some(0)
    else match IndexOf(s[1..], c)
      case None => None
      case Some(k) =>
        assert s[..k + 1] == [s[0]] + s[1..][..k];
        Some(k + 1)
  }

  /** What `std::getline(stream, line)` reads: up to the first newline. */
  function FirstLine(t: string): (r: string)
    ensures '\n' !in r && StartsWith(t, r)
  {
    match IndexOf(t, '\n')
    case None => t
    case Some(j) => t[..j]
  }

  /**
   * The two `getline` calls of the property split: the key up to the first
   * '=', then the value on the rest of the line; without '=' the key is the
   * whole text and the value is empty.
   */
  function SplitProperty(prop: string): (r: (string, string))
    ensures '=' !in r.0
    ensures '=' in prop ==>
      && |r.0| < |prop| && prop[..|r.0|] == r.0 && prop[|r.0|] == '='
      && '\n' !in r.1 && StartsWith(prop[|r.0| + 1..], r.1)
  {
    match IndexOf(prop, '=')
    case None => (prop, "")
    case Some(k) => (prop[..k], FirstLine(prop[k + 1..]))
  }

  /** Splitting what was written as key, '=', value gives the key and value back, even when the value holds '='. */
  lemma SplitPropertyRoundTrip(key: string, value: string)
    requires '=' !in key && '\n' !in value
    ensures SplitProperty(key + "=" + value) == (key, value)
  {
    var prop := key + "=" + value;
    assert prop[..|key|] == key && prop[|key|] == '=';
    IndexOfAt(prop, '=', |key|);
    assert prop[|key| + 1..] == value;
  }

  lemma {:induction false} IndexOfAt(s: string, c: char, k: nat)
    requires k < |s| && s[k] == c && c !in s[..k]
    ensures IndexOf(s, c) == Some(k)
    decreases k
  {
    if k > 0 {
      assert s[0] in s[..k];
      assert s[1..][..k - 1] == s[1..k];
      assert forall x :: x in s[1..k] ==> x in s[..k];
      IndexOfAt(s[1..], c, k - 1);
    }
  }

  /** Without '=', the whole text is the key and the value is empty. */
  lemma SplitPropertyNoEquals(prop: string)
    requires '=' !in prop
    ensures SplitProperty(prop) == (prop, "")
  {
  }

  /** A property value, by the type it is set with. */
  datatype PropertyValue =
    | IntValue(n: int)
    | CapsValue(caps: string)
    | BoolValue(b: bool)
    | FloatValue(text: string)
    | StringValue(text: string)

  /**
   * The type a property is set with, tried in the order of the code: int,
   * caps, "true", "false", float, string. None where `std::stoi` throws
   * (digits beyond the range of `int`).
   */
  function Classify(key: string, value: string): (r: Option<PropertyValue>)
    ensures r.None? <==> IsInt(value) && DigitsValue(value) > INT32_MAX
    ensures r.Some? && r.value.IntValue? <==> IsInt(value) && DigitsValue(value) <= INT32_MAX
    ensures r.Some? && r.value.IntValue? ==> r.value.n == DigitsValue(value)
    ensures r.Some? && r.value.CapsValue? <==> !IsInt(value) && key == "caps"
    ensures r.Some? && r.value.BoolValue? <==> key != "caps" && (value == "true" || value == "false")
    ensures r.Some? && r.value.BoolValue? ==> r.value.b == (value == "true")
    ensures r.Some? && r.value.FloatValue? <==> !IsInt(value) && key != "caps" && IsFloat(value)
    ensures r.Some? && r.value.StringValue? <==>
      !IsInt(value) && key != "caps" && value != "true" && value != "false" && !IsFloat(value)
    ensures r.Some? && !r.value.IntValue? && !r.value.BoolValue? ==>
      r.value in {CapsValue(value), FloatValue(value), StringValue(value)}
  {
    assert !IsDigit("true"[0]) && !IsDigit("false"[0]);
    if IsInt(value) then
      if DigitsValue(value) <= INT32_MAX then Some(IntValue(DigitsValue(value))) else None
    else if key == "caps" then Some(CapsValue(value))
    else if value == "true" then Some(BoolValue(true))
    else if value == "false" then Some(BoolValue(false))
    else if IsFloat(value) then Some(FloatValue(value))
    else Some(StringValue(value))
  }

  /** The integer test comes first, so even a caps property with a numeric value is set as an integer. */
  lemma NumericCapsIsInt()
    ensures Classify("caps", "123") == Some(IntValue(123))
  {
    assert IsInt("123");
    assert DigitsValue("123") == 123 by {
      assert "123"[..2] == "12" && "12"[..1] == "1";
    }
  }

  /** The words "true" and "false" are booleans whatever the key, unless the key is "caps". */
  lemma BooleanWords(key: string)
    requires key != "caps"
    ensures Classify(key, "true") == Some(BoolValue(true))
    ensures Classify(key, "false") == Some(BoolValue(false))
    ensures forall v :: Classify(key, v).Some? && Classify(key, v).value.BoolValue? ==> v == "true" || v == "false"
  {
    assert !IsDigit("true"[0]) && !IsDigit("false"[0]);
  }

  /** A property set on an element: its key and value. */
  datatype Property = Property(key: string, value: PropertyValue)

  /** How `set_element_properties` ends, with the properties it set in order. */
  datatype PropertiesOutcome =
    | PropertiesDone(applied: seq<Property>, ok: bool)
    | PropertiesAborted(applied: seq<Property>)     // `std::stoi` threw out of the call

  function WithApplied(pre: seq<Property>, o: PropertiesOutcome): PropertiesOutcome
  {
    o.(applied := pre + o.applied)
  }

  /** The property a `key=value` text sets; None where reading its value throws. */
  function PropertyOf(text: string): (r: Option<Property>)
    ensures r.Some? ==> r.value.key == SplitProperty(text).0
  {
    var kv := SplitProperty(text);
    match Classify(kv.0, kv.1)
    case None => None
    case Some(v) => Some(Property(kv.0, v))
  }

  /** `set_element_properties` over the entries of a property list, as a function of the entries. */
  function ElementPropertiesOf(props: seq<Yaml>): PropertiesOutcome
    decreases |props|
  {
    if props == [] then PropertiesDone([], true)
    else if !IsText(props[0]) then PropertiesDone([], false)
    else match PropertyOf(Text(props[0]))
      case None => PropertiesAborted([])
      case Some(p) => WithApplied([p], ElementPropertiesOf(props[1..]))
  }

  /** An entry that reads as a string whose value can be read. */
  predicate Settable(entry: Yaml)
  {
    IsText(entry) && PropertyOf(Text(entry)).Some?
  }

  /** With every entry settable, each one is set, in order, and the call succeeds. */
  lemma {:induction false} AllSettable(props: seq<Yaml>)
    requires forall i :: 0 <= i < |props| ==> Settable(props[i])
    ensures ElementPropertiesOf(props).PropertiesDone?
    ensures ElementPropertiesOf(props).ok && |ElementPropertiesOf(props).applied| == |props|
    decreases |props|
  {
    if props != [] {
      AllSettable(props[1..]);
    }
  }

  /** The first entry that is not a string ends the call with false, after the entries before it were set. */
  lemma {:induction false} StopsAtFirstNonString(props: seq<Yaml>, i: nat)
    requires i < |props| && !IsText(props[i])
    requires forall j :: 0 <= j < i ==> Settable(props[j])
    ensures ElementPropertiesOf(props).PropertiesDone?
    ensures !ElementPropertiesOf(props).ok && |ElementPropertiesOf(props).applied| == i
    decreases i
  {
    if i > 0 {
      StopsAtFirstNonString(props[1..], i - 1);
    }
  }

  /** What the entries from `i` on give, by the case of entry `i`. */
  lemma ElementPropertiesAt(props: seq<Yaml>, i: nat)
    requires i < |props|
    ensures !IsText(props[i]) ==> ElementPropertiesOf(props[i..]) == PropertiesDone([], false)
    ensures IsText(props[i]) && PropertyOf(Text(props[i])).None? ==> ElementPropertiesOf(props[i..]) == PropertiesAborted([])
    ensures IsText(props[i]) && PropertyOf(Text(props[i])).Some? ==>
      ElementPropertiesOf(props[i..]) == WithApplied([PropertyOf(Text(props[i])).value], ElementPropertiesOf(props[i + 1..]))
  {
    assert props[i..][0] == props[i] && props[i..][1..] == props[i + 1..];
  }

  lemma WithAppliedAppend(pre: seq<Property>, p: Property, o: PropertiesOutcome)
    ensures WithApplied(pre, WithApplied([p], o)) == WithApplied(pre + [p], o)
  {
    assert pre + ([p] + o.applied) == (pre + [p]) + o.applied;
  }

  /** Setting entry `i` moves its property from the outcome of the rest to the list applied so far. */
  lemma ElementPropertiesStep(props: seq<Yaml>, i: nat, applied: seq<Property>)
    requires i < |props| && Settable(props[i])
    ensures WithApplied(applied, ElementPropertiesOf(props[i..])) ==
      WithApplied(applied + [PropertyOf(Text(props[i])).value], ElementPropertiesOf(props[i + 1..]))
  {
    ElementPropertiesAt(props, i);
    WithAppliedAppend(applied, PropertyOf(Text(props[i])).value, ElementPropertiesOf(props[i + 1..]));
  }

  /**
   * `set_element_properties`: for each entry, read it as a string (false
   * when it is not one), split it, and set it with the type it classifies as.
   */
  method SetElementProperties(props: seq<Yaml>) returns (outcome: PropertiesOutcome)
    ensures outcome == ElementPropertiesOf(props)
  {
    var applied: seq<Property> := [];
    var i := 0;
    while i < |props|
      invariant 0 <= i <= |props|
      invariant ElementPropertiesOf(props) == WithApplied(applied, ElementPropertiesOf(props[i..]))
    {
      if !IsText(props[i]) {
        ElementPropertiesAt(props, i);
        return PropertiesDone(applied, false);
      }
      var p := PropertyOf(Text(props[i]));
      if p.None? {
        ElementPropertiesAt(props, i);
        return PropertiesAborted(applied);
      }
      ElementPropertiesStep(props, i, applied);
      applied := applied + [p.value];
      i := i + 1;
    }
    outcome := PropertiesDone(applied, true);
  }

  /**
   * The source property list of a YAML pipeline description: every entry
   * split into its key and value, or None when one is not a string.
   */
  method SplitSourceProperties(props: seq<Yaml>) returns (r: Option<seq<(string, string)>>)
    ensures r.None? <==> exists i :: 0 <= i < |props| && !IsText(props[i])
    ensures r.Some? ==> |r.value| == |props| && forall i :: 0 <= i < |props| ==> r.value[i] == SplitProperty(Text(props[i]))
  {
    var pairs: seq<(string, string)> := [];
    var i := 0;
    while i < |props|
      invariant 0 <= i <= |props|
      invariant |pairs| == i
      invariant forall j :: 0 <= j < i ==> IsText(props[j]) && pairs[j] == SplitProperty(Text(props[j]))
    {
      if !IsText(props[i]) {
        return None;
      }
      pairs := pairs + [SplitProperty(Text(props[i]))];
      i := i + 1;
    }
    r := Some(pairs);
  }

  // ---------------------------------------------------------------------
  // Linking
  // ---------------------------------------------------------------------

  /** `GST_PAD_LINK_OK`. */
  const PAD_LINK_OK: int := 0

  /** How a step that may throw a yaml-cpp exception ends. */
  datatype Outcome = Succeeded | Failed | Threw

  /**
   * `set_links`: a "request" link reads its pad and element names and succeeds
   * when the pad link does; an "ignore" link succeeds without linking; any
   * other type fails. A missing or non-string field throws.
   */
  function SetLinks(element: Yaml, padLinkStatus: int): (r: Outcome)
    ensures r == Threw <==> (
      var link := YGet(element, "link");
      StringField(link, "type").None? ||
      (StringField(link, "type") == Some("request") &&
        (StringField(link, "pad_name").None? || StringField(link, "link_element").None? || StringField(link, "link_pad").None?)))
    ensures r == Succeeded ==> StringField(YGet(element, "link"), "type") in {Some("request"), Some("ignore")}
    ensures StringField(YGet(element, "link"), "type") == Some("ignore") ==> r == Succeeded
    ensures StringField(YGet(element, "link"), "type") == Some("request") && r != Threw ==>
      (r == Succeeded <==> padLinkStatus == PAD_LINK_OK)
    ensures StringField(YGet(element, "link"), "type").Some? ==>
      StringField(YGet(element, "link"), "type").value !in {"request", "ignore"} ==> r == Failed
  {
    var link := YGet(element, "link");
    match StringField(link, "type")
    case None => Threw
    case Some(linkType) =>
      if linkType == "request" then
        if StringField(link, "pad_name").None? || StringField(link, "link_element").None? || StringField(link, "link_pad").None? then Threw
        else if padLinkStatus == PAD_LINK_OK then Succeeded else Failed
      else if linkType == "ignore" then Succeeded
      else Failed
  }

  /** `link_static_pad_elements`: fails without a previous element, otherwise as the static link does. */
  function LinkStaticPadElements(lastElement: string, staticLinkOk: bool): (ok: bool)
    ensures ok <==> lastElement != "" && staticLinkOk
  {
    if lastElement == "" then false else staticLinkOk
  }

  /**
   * `link_pipeline_elements`: an element whose alias cannot be read fails; one
   * with a link field is linked by `set_links`; the "source" element needs no
   * link; any other is linked statically to the previous element.
   */
  function LinkPipelineElements(element: Yaml, lastElement: string, padLinkStatus: int, staticLinkOk: bool): (r: Outcome)
    ensures AsString(YGet(element, "alias")).None? ==> r == Failed
    ensures r == Threw ==> YGet(element, "link").Some?
    ensures AsString(YGet(element, "alias")).Some? && AsString(YGet(element, "alias")).value != "source" && YGet(element, "link").None? ==>
      (r == Succeeded <==> lastElement != "" && staticLinkOk)
  {
    match AsString(YGet(element, "alias"))
    case None => Failed
    case Some(name) =>
      if YGet(element, "link").Some? then SetLinks(element, padLinkStatus)
      else if name == "source" then Succeeded
      else if LinkStaticPadElements(lastElement, staticLinkOk) then Succeeded else Failed
  }

  /** An element without a link field after nothing else can be linked only when it is the source. */
  lemma FirstElementNeedsSourceAlias(element: Yaml, padLinkStatus: int, staticLinkOk: bool)
    requires YGet(element, "link").None?
    ensures LinkPipelineElements(element, "", padLinkStatus, staticLinkOk) == Succeeded <==> AsString(YGet(element, "alias")) == Some("source")
  {
  }

  /** An element with a link field is linked exactly as `set_links` decides, once its alias is readable. */
  lemma LinkFieldDecides(element: Yaml, lastElement: string, padLinkStatus: int, staticLinkOk: bool)
    requires YGet(element, "link").Some? && AsString(YGet(element, "alias")).Some?
    ensures LinkPipelineElements(element, lastElement, padLinkStatus, staticLinkOk) == SetLinks(element, padLinkStatus)
  {
  }
}
