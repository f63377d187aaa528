# Battery Level Card — a Dafny model

The battery level card is a Home Assistant dashboard card that shows one
sensor's battery level as a small battery: a coloured bar, a percentage
label and, optionally, the percentage inside the bar. This project models
the card's logic in `battery-level-card.js`:

- **Colour** (`_getBatteryColor`, module `Colors`): the level is clamped to
  [0, 100]; up to 50 % red stays at 255 and green rises (red to yellow),
  above 50 % green stays at 255 and red falls (yellow to green); blue is 0.
  `Math.round` is `Floor(x + 1/2)` over the reals. The `rgb(r, g, 0)` text is
  modelled too (`ColorString`), with the decimal spelling of integers in
  module `NumberText`.
- **Configuration** (`setConfig`, modules `CardConfig` and `Card`): a
  configuration that is null/undefined or has a falsy `entity` is refused
  with the card's German error message and the stored configuration stays
  as it was; otherwise the card stores the entity, the name if truthy (else
  null) and a percentage-text flag that is false only for an explicit
  `false`. JavaScript values and their truthiness are in module `JsValues`.
- **Rendering** (the data part of `render`, module `Classifier`): no
  configuration or no state store gives an empty view; an entity missing
  from `hass.states` gives the "not found" view; otherwise the state
  `"unavailable"`/`"unknown"` gives level 0, an empty bar, the label
  "Nicht verfügbar" and no text in the bar, and any other state is parsed,
  NaN becomes 0 and the result is clamped; the label is the rounded level
  followed by `%`; the name falls back from the configured name to
  `friendly_name` to the entity id. The view is a datatype, not markup.
- The card object (`Card.BatteryLevelCard`) holds the stored configuration
  and the state store; `SetConfig` changes only the former, `SetHass` the
  latter, and `Render` returns the `Classifier.Render` view of both.

`parseFloat` is a parameter of `Render` (any function from the state string
to a JavaScript number: a real, NaN or an infinity). Finite numbers are
reals, so nothing here is claimed about bit-exact IEEE-754 double
behaviour.

Any other state that does not parse as a number is shown as 0 %.

## Model

| member | source | states |
|---|---|---|
| `JsValues.Or` | battery-level-card.js:169 | JavaScript's logical or of a and b is truthy exactly when one operand is, and is one of its operands |
| `JsValues.FalsyValues` | battery-level-card.js:116 | the values `!x` accepts are exactly undefined, null, false, NaN, 0 and "" |
| `JsValues.OrPicksFirstTruthy` | battery-level-card.js:169 | a chain of logical ors yields its first truthy operand, else the last one |
| `JsValues.PropertyKey` | battery-level-card.js:152 | a string entity id indexes the store as itself; booleans, undefined, null, NaN and the infinities by their JavaScript spelling |
| `JsValues.PropertyKeyOfInteger` | battery-level-card.js:152 | an integral number indexes the store by its decimal spelling |
| `JsValues.PropertyKeyOfNegativeInteger` | battery-level-card.js:152 | a negative integral number indexes the store by `-` and its decimal spelling |
| `NumberText.Decimal` | battery-level-card.js:179 | integers are written with digits only and no leading zero |
| `NumberText.ParseDecimalOfDecimal` | battery-level-card.js:179 | reading back the decimal spelling gives the number again |
| `NumberText.DecimalInjective` | battery-level-card.js:143 | different numbers have different spellings |
| `NumberText.SplitAtSeparator` | battery-level-card.js:143 | digit strings before the same separator split apart uniquely |
| `Colors.Clamp` | battery-level-card.js:132 | the result lies in [0, 100], equals the input inside it, 0 below, 100 above |
| `Colors.Round` | battery-level-card.js:137-139 | the result is the integer n with n - 1/2 <= x < n + 1/2 (halves round up) |
| `Colors.BatteryColor` | battery-level-card.js:131-144 | every channel is in [0, 255], blue is 0, and red or green is at full 255 |
| `Colors.ColorString` | battery-level-card.js:143 | the CSS text has the form `rgb(...)` |
| `Colors.ClampIdempotent` | battery-level-card.js:132 | clamping twice is clamping once |
| `Colors.ClampMonotone` | battery-level-card.js:132 | clamping preserves order |
| `Colors.RoundMonotone` | battery-level-card.js:137-139 | rounding preserves order |
| `Colors.ColorOfClamped` | battery-level-card.js:132 | the colour of a clamped level equals the colour of the raw level |
| `Colors.ColorEndpoints` | battery-level-card.js:132-143 | any level <= 0 is (255, 0, 0), any level >= 100 is (0, 255, 0), 50 is (255, 255, 0) |
| `Colors.ColorSegments` | battery-level-card.js:135-141 | up to 50 red is 255 and green is round(5.1 p); above 50 green is 255 and red is round(510 - 5.1 p) |
| `Colors.ColorAccuracy` | battery-level-card.js:135-141 | the channel that is not full is within 1/2 of the exact linear ramp |
| `Colors.ColorMonotone` | battery-level-card.js:135-141 | as the level grows green never decreases and red never increases |
| `Colors.ColorExamples` | battery-level-card.js:137-139 | 5 % is (255, 26, 0) and 75 % is (128, 255, 0), showing halves rounding up |
| `Colors.ColorStringFields` | battery-level-card.js:143 | the fields of a battery colour's CSS text, read back, are red, then green, then 0 |
| `Colors.SplitRgbText` | battery-level-card.js:143 | the three fields of `rgb(a, b, c)` are recovered from the text |
| `Colors.ColorStringInjective` | battery-level-card.js:143 | two colours with the same CSS text are the same colour |
| `CardConfig.Normalize` | battery-level-card.js:115-125 | fails with the missing-entity message exactly when the configuration or its entity is falsy; else the stored config keeps the entity and is normalised |
| `CardConfig.NormalizedFields` | battery-level-card.js:120-124 | a truthy name is kept, a falsy one becomes null; the text flag is off exactly for an explicit false, so absent means on |
| `CardConfig.NormalizeFixedPoint` | battery-level-card.js:120-124 | passing a stored configuration back in stores it unchanged |
| `CardConfig.NormalizeIdempotent` | battery-level-card.js:120-124 | normalising twice is normalising once |
| `CardConfig.MinimalConfig` | battery-level-card.js:120-124 | an entity alone gives name null and the text shown |
| `Classifier.IsUnavailable` | battery-level-card.js:165 | a state counts as unavailable exactly when it is "unavailable" or "unknown" |
| `Classifier.ClampNumber` | battery-level-card.js:167 | the clamped level lies in [0, 100]: an in-range number is kept, below 0 or minus infinity gives 0, above 100 or infinity gives 100 |
| `Classifier.FriendlyName` | battery-level-card.js:169 | the `friendly_name` attribute, undefined when absent |
| `Classifier.DisplayName` | battery-level-card.js:169 | configured name if truthy, else `friendly_name` if truthy, else the entity id; truthy exactly when one of the three is |
| `Classifier.NumberOrZero` | battery-level-card.js:166 | NaN becomes 0 and every other number is kept |
| `Classifier.Level` | battery-level-card.js:164-167 | the clamped percentage lies in [0, 100] |
| `Classifier.PercentText` | battery-level-card.js:179 | the label is the decimal spelling of the rounded level, digits only, followed by `%` |
| `Classifier.Lookup` | battery-level-card.js:151-154 | an entry is found exactly when the id's property name is a key of the store, and it is the entry under that key; a string id is its own key |
| `Classifier.Classify` | battery-level-card.js:164-189 | the level is the clamped reading in [0, 100], the name is the fallback display name, the gauge is unavailable exactly for the unavailable states, the colour is valid with blue 0 |
| `Classifier.Render` | battery-level-card.js:146-189 | blank exactly without config or store, not found exactly when the lookup fails (naming the entity), else the gauge of the entry stored under the configured entity |
| `Classifier.LevelOfReading` | battery-level-card.js:165-167 | unavailable and NaN give 0, a number gives its clamp, infinities give 0/100, an in-range number is kept |
| `Classifier.ColorOfReading` | battery-level-card.js:167-170 | the bar colour of a reading equals the colour of the unclamped number |
| `Classifier.UnavailableGauge` | battery-level-card.js:165-189 | unavailable/unknown: level 0, width "0", label "Nicht verfügbar", no bar text, red |
| `Classifier.AvailableGauge` | battery-level-card.js:171-189 | otherwise the bar fills to the level and the label reads back as the rounded level, an integer in [0, 100] within 1/2 of it |
| `Classifier.BarText` | battery-level-card.js:184-186 | the bar text appears exactly when enabled and available, and equals the label |
| `Classifier.DisplayNameFallback` | battery-level-card.js:169 | for a normalised configuration the shown name is never falsy |
| `Classifier.NonNumericGauge` | battery-level-card.js:166-189 | a state that does not parse as a number shows level 0, caption "0%", bar width 0 and red |
| `Classifier.RenderOfStoredEntity` | battery-level-card.js:151-170 | a configured id present in the store renders the gauge of exactly that entry |
| `Classifier.MissingEntity` | battery-level-card.js:154-161 | an id missing from the store gives the not-found view, not a failure |
| `Classifier.FivePercentExample` | battery-level-card.js:146-189 | state "5" renders as 5 %, label "5%", colour (255, 26, 0), named after the entity |
| `Card.BatteryLevelCard.constructor` | battery-level-card.js:22-28 | a new card has no configuration and no store, and satisfies the card invariant |
| `Card.BatteryLevelCard.SetConfig` | battery-level-card.js:115-125 | returns the thrown message and leaves the configuration unchanged, or stores the normalised configuration; the store is untouched; a stored configuration stays normalised |
| `Card.BatteryLevelCard.SetHass` | battery-level-card.js:26 | assigning the store leaves the configuration unchanged |
| `Card.BatteryLevelCard.Render` | battery-level-card.js:146-197 | the view of the current configuration and store; never blank when both are set; a shown name is never falsy |

## Left out

- `loadCardHelpers`, the promise that waits for the dashboard and the prototype lookup of LitElement: host start-up, no logic.
- The CSS block, the `html` templates, `getCardSize` and `getStubConfig`: declarative presentation without logic.
- `customElements.define`, `console.info` and the `window.customCards` registration: global host registries.
- The text of the width `calc(<level>% - 4px)`: it depends on JavaScript's spelling of doubles; the model keeps the level itself (`Width.Fill`).
- `parseFloat`'s grammar: it is a parameter; the model does not say which strings parse to which numbers.
- Bit-exact double arithmetic: levels and the colour ramp are computed over the reals, so results that IEEE-754 rounding would move by one unit near a half are not claimed.
- `JsValues.PropertyKey`: gives no key (so "not found") for non-integral numbers, numbers of magnitude 10^21 or more, and objects, whose JavaScript spelling is not modelled.
- Inherited properties of `hass.states` (an id such as `constructor`) are not modelled: the store is a plain map.
- `render` with a stored entry whose `attributes` is missing would throw when no truthy name is configured (`attributes.friendly_name` is then read); the model always has an attribute map.
- The unavailable-state styling (the `unavailable` CSS class) is represented only by `Gauge.unavailable`.
