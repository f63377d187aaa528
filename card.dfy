/**
 * The card object: it holds the configuration `setConfig` stores and the
 * host's state store, and renders from both.
 */
module Card {
  import opened Wrappers
  import opened JsValues
  import opened CardConfig
  import Classifier

  class BatteryLevelCard {
    /** `_config`. */
    var config: Option<Config>
    /** `hass.states` of the host's `hass` object; None while the host has not assigned `hass`. */
    var states: Option<Classifier.States>

    /** A stored configuration is always a normalised one. */
    ghost predicate Valid()
      reads this
    {
      config.Some? ==> IsNormalized(config.value)
    }

    constructor ()
      ensures Valid()
      ensures config.None? && states.None?
    {
      config := None;
      states := None;
    }

    /**
     * `setConfig`: returns the error it throws, and then leaves the stored
     * configuration as it was; otherwise stores the normalised configuration.
     */
    method SetConfig(raw: Option<RawConfig>) returns (error: Option<string>)
      requires Valid()
      modifies this
      ensures Valid()
      ensures states == old(states)
      ensures error.Some? <==> raw.None? || !Truthy(raw.value.entity)
      ensures error.Some? ==> error.value == MissingEntityMessage && config == old(config)
      ensures error.None? ==> config == Some(Normalize(raw).value)
    {
      var r := Normalize(raw);
      if r.Failure? {
        return Some(r.error);
      }
      config := Some(r.value);
      error := None;
    }

    /** The host assigning `hass`, of which the card keeps `hass.states`. */
    method SetHass(hassStates: Classifier.States)
      requires Valid()
      modifies this
      ensures Valid()
      ensures states == Some(hassStates) && config == old(config)
    {
      states := Some(hassStates);
    }

    /** `render`: the view of the current configuration and state store. */
    method Render(parseFloat: string -> JsNumber) returns (v: Classifier.View)
      requires Valid()
      ensures v == Classifier.Render(config, states, parseFloat)
      ensures config.Some? && states.Some? ==> !v.Blank?
      ensures v.Shown? ==> Truthy(v.gauge.name)
    {
      v := Classifier.Render(config, states, parseFloat);
    }
  }
}
