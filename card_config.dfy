/**
 * The card's configuration (`setConfig`): a configuration without a truthy
 * `entity` is refused with an error; otherwise the entity is kept, the name
 * is kept only when truthy (else null), and the percentage text is shown
 * unless `show_percentage_text` is exactly `false`.
 */
module CardConfig {
  import opened Wrappers
  import opened JsValues

  /** The configuration object as the dashboard hands it over; absent fields are Undefined. */
  datatype RawConfig = RawConfig(entity: JsValue, name: JsValue, showPercentageText: JsValue)

  /** The normalised configuration the card stores. */
  datatype Config = Config(entity: JsValue, name: JsValue, showPercentageText: bool)

  const MissingEntityMessage: string := "Bitte eine Entity für die battery-level-card angeben."

  /** What every stored configuration satisfies. */
  predicate IsNormalized(c: Config) {
    Truthy(c.entity) && (c.name == Null || Truthy(c.name))
  }

  /** `setConfig`'s check and normalisation; a null or undefined configuration is None. */
  function Normalize(raw: Option<RawConfig>): (r: Result<Config, string>)
    ensures r.Failure? <==> raw.None? || !Truthy(raw.value.entity)
    ensures r.Failure? ==> r.error == MissingEntityMessage
    ensures r.Success? ==> IsNormalized(r.value) && r.value.entity == raw.value.entity
  {
    if raw.None? || !Truthy(raw.value.entity) then
      Failure(MissingEntityMessage)
    else
      var c := raw.value;
      Success(Config(c.entity, Or(c.name, Null), c.showPercentageText != Bool(false)))
  }

  /** The configuration as a dashboard would pass it back in. */
  function ToRaw(c: Config): RawConfig {
    RawConfig(c.entity, c.name, Bool(c.showPercentageText))
  }

  /**
   * A truthy name is kept and any falsy one (absent, "", null, ...) becomes
   * null; the percentage text is off only for an explicit `false`, so an
   * absent flag means on.
   */
  lemma NormalizedFields(raw: RawConfig)
    requires Truthy(raw.entity)
    ensures Normalize(Some(raw)).Success?
    ensures var c := Normalize(Some(raw)).value;
      && c.entity == raw.entity
      && (Truthy(raw.name) ==> c.name == raw.name)
      && (!Truthy(raw.name) ==> c.name == Null)
      && (!c.showPercentageText <==> raw.showPercentageText == Bool(false))
      && (raw.showPercentageText == Undefined ==> c.showPercentageText)
  {
  }

  /** Handing the stored configuration back to `setConfig` stores it unchanged. */
  lemma NormalizeFixedPoint(c: Config)
    requires IsNormalized(c)
    ensures Normalize(Some(ToRaw(c))) == Success(c)
  {
  }

  /** Normalising twice is normalising once. */
  lemma NormalizeIdempotent(raw: Option<RawConfig>)
    ensures Normalize(raw).Success? ==>
      Normalize(Some(ToRaw(Normalize(raw).value))) == Normalize(raw)
  {
  }

  /** The smallest accepted configuration: just an entity id. */
  lemma MinimalConfig(id: string)
    requires id != ""
    ensures Normalize(Some(RawConfig(Str(id), Undefined, Undefined))) == Success(Config(Str(id), Null, true))
  {
  }
}
