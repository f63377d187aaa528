/**
 * What the card's `render` derives from the state store before it builds
 * markup: nothing without a configuration or a store, a "not found" message
 * for an unknown entity, and otherwise the gauge: display name, whether the
 * reading is unavailable, the clamped level, the caption, the optional text
 * inside the bar, the bar width and the bar colour.
 */
module Classifier {
  import opened Wrappers
  import opened JsValues
  import opened NumberText
  import opened Colors
  import opened CardConfig

  /** One entry of the host's state store: the state string and the attributes. */
  datatype StateObj = StateObj(state: string, attributes: map<string, JsValue>)

  /** The host's `hass.states`, from entity id to entry. */
  type States = map<string, StateObj>

  /** The bar width: the literal "0", or `calc(<level>% - 4px)`. */
  datatype Width = Collapsed | Fill(percent: real)

  datatype Gauge = Gauge(
    name: JsValue,
    unavailable: bool,
    level: real,
    caption: string,
    barText: Option<string>,
    width: Width,
    color: Rgb)

  /** What `render` shows: an empty template, the not-found message for an entity, or the gauge. */
  datatype View = Blank | NotFound(entity: JsValue) | Shown(gauge: Gauge)

  const UnavailableLabel: string := "Nicht verfügbar"

  /** The two states Home Assistant uses for a sensor without a current value. */
  predicate IsUnavailable(state: string): (b: bool)
    ensures b <==> state in {"unavailable", "unknown"}
  {
    state == "unavailable" || state == "unknown"
  }

  /** `parseFloat(state) || 0`: NaN (and 0) become 0. */
  function NumberOrZero(n: JsNumber): (r: JsNumber)
    ensures !r.NaN?
    ensures n.NaN? ==> r == Finite(0.0)
    ensures !n.NaN? ==> r == n
  {
    if n.NaN? then Finite(0.0) else n
  }

  /** `Math.max(0, Math.min(100, n))` for a number that is not NaN. */
  function ClampNumber(n: JsNumber): (p: real)
    requires !n.NaN?
    ensures 0.0 <= p <= 100.0
    ensures n.Finite? && 0.0 <= n.value <= 100.0 ==> p == n.value
    ensures n.Finite? && n.value < 0.0 ==> p == 0.0
    ensures n.Finite? && n.value > 100.0 ==> p == 100.0
    ensures n.PosInfinity? ==> p == 100.0
    ensures n.NegInfinity? ==> p == 0.0
  {
    match n
    case Finite(x) => Clamp(x)
    case PosInfinity => 100.0
    case NegInfinity => 0.0
  }

  /** The clamped percentage of a state whose `parseFloat` result is `parsed`. */
  function Level(state: string, parsed: JsNumber): (p: real)
    ensures 0.0 <= p <= 100.0
  {
    var percentage := if IsUnavailable(state) then Finite(0.0) else NumberOrZero(parsed);
    ClampNumber(percentage)
  }

  /** `${Math.round(level)}%`. */
  function PercentText(level: real): (s: string)
    requires 0.0 <= level <= 100.0
    ensures |s| >= 2 && s[|s| - 1] == '%'
    ensures AllDigits(s[..|s| - 1]) && s[..|s| - 1] == Decimal(Round(level))
  {
    Decimal(Round(level)) + "%"
  }

  /** `stateObj.attributes.friendly_name`: Undefined when the attribute is absent. */
  function FriendlyName(obj: StateObj): (v: JsValue)
    ensures "friendly_name" !in obj.attributes ==> v == Undefined
    ensures "friendly_name" in obj.attributes ==> v == obj.attributes["friendly_name"]
  {
    if "friendly_name" in obj.attributes then obj.attributes["friendly_name"] else Undefined
  }

  /** `config.name || attributes.friendly_name || entity`. */
  function DisplayName(config: Config, obj: StateObj): (v: JsValue)
    ensures Truthy(config.name) ==> v == config.name
    ensures !Truthy(config.name) && Truthy(FriendlyName(obj)) ==> v == FriendlyName(obj)
    ensures !Truthy(config.name) && !Truthy(FriendlyName(obj)) ==> v == config.entity
    ensures Truthy(v) <==> Truthy(config.name) || Truthy(FriendlyName(obj)) || Truthy(config.entity)
  {
    Or(Or(config.name, FriendlyName(obj)), config.entity)
  }

  /** `hass.states[entity]`, None when the store has no such entry. */
  function Lookup(states: States, entity: JsValue): (r: Option<StateObj>)
    ensures r.Some? <==> PropertyKey(entity).Some? && PropertyKey(entity).value in states
    ensures r.Some? ==> r.value == states[PropertyKey(entity).value]
    ensures entity.Str? ==> (r.Some? <==> entity.s in states)
  {
    match PropertyKey(entity)
    case None => None
    case Some(k) => if k in states then Some(states[k]) else None
  }

  /** The gauge for a found entry, given what `parseFloat` makes of its state. */
  function Classify(config: Config, obj: StateObj, parsed: JsNumber): (g: Gauge)
    ensures 0.0 <= g.level <= 100.0 && g.level == Level(obj.state, parsed)
    ensures g.unavailable <==> IsUnavailable(obj.state)
    ensures g.name == DisplayName(config, obj)
    ensures IsColor(g.color) && g.color.blue == 0
  {
    var unavailable := IsUnavailable(obj.state);
    var level := Level(obj.state, parsed);
    Gauge(
      name := DisplayName(config, obj),
      unavailable := unavailable,
      level := level,
      caption := if unavailable then UnavailableLabel else PercentText(level),
      barText := if config.showPercentageText && !unavailable then Some(PercentText(level)) else None,
      width := if unavailable then Collapsed else Fill(level),
      color := BatteryColor(level))
  }

  /** `render`, with `parseFloat` as a parameter. */
  function Render(config: Option<Config>, states: Option<States>, parseFloat: string -> JsNumber): (v: View)
    ensures v.Blank? <==> config.None? || states.None?
    ensures v.NotFound? <==>
      config.Some? && states.Some? && Lookup(states.value, config.value.entity).None?
    ensures v.NotFound? ==> v.entity == config.value.entity
    ensures v.Shown? ==>
      var obj := Lookup(states.value, config.value.entity);
      obj.Some? && v.gauge == Classify(config.value, obj.value, parseFloat(obj.value.state))
  {
    if config.None? || states.None? then
      Blank
    else
      var entity := config.value.entity;
      match Lookup(states.value, entity)
      case None => NotFound(entity)
      case Some(obj) => Shown(Classify(config.value, obj, parseFloat(obj.state)))
  }

  /** The level is the clamped parse result; a state that is not a number counts as 0. */
  lemma LevelOfReading(state: string, parsed: JsNumber)
    ensures IsUnavailable(state) ==> Level(state, parsed) == 0.0
    ensures !IsUnavailable(state) ==> match parsed
      case NaN => Level(state, parsed) == 0.0
      case Finite(x) => Level(state, parsed) == Clamp(x)
      case PosInfinity => Level(state, parsed) == 100.0
      case NegInfinity => Level(state, parsed) == 0.0
    ensures !IsUnavailable(state) && parsed.Finite? && 0.0 <= parsed.value <= 100.0 ==>
      Level(state, parsed) == parsed.value
  {
  }

  /** Re-clamping inside the colour function changes nothing. */
  lemma ColorOfReading(state: string, x: real)
    requires !IsUnavailable(state)
    ensures BatteryColor(Level(state, Finite(x))) == BatteryColor(x)
  {
  }

  /** An unavailable or unknown state: level 0, empty bar, the unavailable caption, no text in the bar. */
  lemma UnavailableGauge(config: Config, obj: StateObj, parsed: JsNumber)
    requires IsUnavailable(obj.state)
    ensures var g := Classify(config, obj, parsed);
      && g.unavailable && g.level == 0.0 && g.width == Collapsed
      && g.caption == UnavailableLabel && g.barText.None?
      && g.color == Rgb(255, 0, 0)
  {
  }

  /** An available state: the caption is the rounded level in [0, 100] followed by `%`. */
  lemma AvailableGauge(config: Config, obj: StateObj, parsed: JsNumber)
    requires !IsUnavailable(obj.state)
    ensures var g := Classify(config, obj, parsed);
      && !g.unavailable && g.width == Fill(g.level)
      && g.caption == Decimal(Round(g.level)) + "%"
      && AllDigits(g.caption[..|g.caption| - 1])
      && 0 <= ParseDecimal(g.caption[..|g.caption| - 1]) <= 100
      && -0.5 < ParseDecimal(g.caption[..|g.caption| - 1]) as real - g.level <= 0.5
      && g.color == BatteryColor(g.level)
  {
    var g := Classify(config, obj, parsed);
    var n := Round(g.level);
    assert g.caption[..|g.caption| - 1] == Decimal(n);
    ParseDecimalOfDecimal(n);
  }

  /** The text inside the bar appears exactly when enabled and the state is available, and repeats the caption. */
  lemma BarText(config: Config, obj: StateObj, parsed: JsNumber)
    ensures var g := Classify(config, obj, parsed);
      && (g.barText.Some? <==> config.showPercentageText && !IsUnavailable(obj.state))
      && (g.barText.Some? ==> g.barText.value == g.caption)
  {
  }

  /** The name falls back from the configured name, to `friendly_name`, to the entity id. */
  lemma DisplayNameFallback(config: Config, obj: StateObj)
    ensures IsNormalized(config) ==> Truthy(DisplayName(config, obj))
  {
  }

  /** A state that does not parse as a number is shown as 0 %, in red. */
  lemma NonNumericGauge(config: Config, obj: StateObj)
    requires !IsUnavailable(obj.state)
    ensures var g := Classify(config, obj, NaN);
      && !g.unavailable && g.level == 0.0 && g.width == Fill(0.0)
      && g.caption == "0%" && g.color == Rgb(255, 0, 0)
      && (config.showPercentageText ==> g.barText == Some("0%"))
  {
    ColorEndpoints(0.0);
    assert Round(0.0) == 0;
  }

  /** The card shows the entry the configured entity id names, not any other entry of the store. */
  lemma RenderOfStoredEntity(config: Config, states: States, parseFloat: string -> JsNumber, id: string)
    requires config.entity == Str(id) && id in states
    ensures Render(Some(config), Some(states), parseFloat)
      == Shown(Classify(config, states[id], parseFloat(states[id].state)))
  {
  }

  /** An entity missing from the store is reported by name, not as a failure. */
  lemma MissingEntity(config: Config, states: States, parseFloat: string -> JsNumber, id: string)
    requires config.entity == Str(id) && id !in states
    ensures Render(Some(config), Some(states), parseFloat) == NotFound(Str(id))
  {
  }

  /** A sensor at 5 %: red with green 26, caption "5%", text in the bar, named after the entity. */
  lemma FivePercentExample(parseFloat: string -> JsNumber)
    requires parseFloat("5") == Finite(5.0)
    ensures var config := Normalize(Some(RawConfig(Str("sensor.phone"), Undefined, Undefined)));
      && config.Success?
      && Render(Some(config.value), Some(map["sensor.phone" := StateObj("5", map[])]), parseFloat)
         == Shown(Gauge(Str("sensor.phone"), false, 5.0, "5%", Some("5%"), Fill(5.0), Rgb(255, 26, 0)))
  {
    MinimalConfig("sensor.phone");
    ColorExamples();
    var config := Config(Str("sensor.phone"), Null, true);
    var obj := StateObj("5", map[]);
    assert Lookup(map["sensor.phone" := obj], config.entity) == Some(obj);
    assert Level("5", Finite(5.0)) == 5.0;
    assert Round(5.0) == 5;
    assert PercentText(5.0) == "5%";
    assert DisplayName(config, obj) == Str("sensor.phone");
  }
}
