# Studio lighting configurator — verified model

The configurator holds a lighting setup of four parts: a key ("main") light, a fill light, a rim light and a
background. Its controls edit one field at a time or switch the fill and rim lights on and off. From the current setup it
writes a text prompt describing the setup for a product photograph. This project models that core in Dafny and
proves what it does:

- `wrappers.dfy` (`Wrappers`): `Option` and `Result`.
- `decimal.dfy` (`Decimal`): how an integral number is rendered when interpolated into the prompt. This is the
  decimal spelling, with a round trip through a digit parser.
- `color.dfy` (`ColorConverter`): the nested `hexToRgb` parser, which takes an optional `#` and six
  case-insensitive hex digits to three byte channels. Also the `greenShade` bucketing of the green channel, and the
  `#rrggbb` spelling a colour picker delivers.
- `config.dfy` (`LightingConfig`): the setup as a record value with a fixed shape, and its startup value.
  `updateLightConfig` and `toggleLight` as functions on that value. Their frame laws. The bounds of the sliders and
  menus as a validity predicate.
- `prompt.dfy` (`PromptSynthesis`): the prompt as a concatenation of clause functions. The preamble and key clause are
  always present, the fill and rim clauses only when those lights are enabled, and the background clause always
  closes it. Properties are proved about this concatenation.
- `studio.dfy` (`Studio`): the component itself, as a class whose fields are the four parts of the setup. Its methods
  update those fields in place. `GeneratePrompt` appends the prompt one piece at a time, as `generatePrompt` does, and is
  proved equal to the clause concatenation.

The code does not clamp or check what the controls deliver. The slider and menu bounds are therefore a predicate
(`LightingConfig.Valid`), not behaviour of the updates. `UpdateDoesNotClamp` shows an out-of-range value being stored
as given.

The startup key light has intensity 75. The code's threshold is "strong above 65", so the default prompt describes a
*strong* softbox (`PromptSynthesis.DefaultPrompt`).

When the background colour does not parse, `hexToRgb` returns null and the prompt code then dereferences it. Here that
path is the explicit failure `Failure(InvalidColorFormat)`.

## Model

| member | source | states |
|---|---|---|
| Decimal.NatToString | index.jsx:43-45 | A natural number is spelled as a non-empty run of decimal digits with no leading zero, and "0" for zero |
| Decimal.IntToString | index.jsx:43-45 | The spelling of an integer is non-empty and starts with '-' exactly when the integer is negative. The rest is decimal digits with no leading zero, except "0" itself, and it parses back to the integer |
| Decimal.NatRoundTrip | index.jsx:43-45 | Parsing the digits written for n gives back n |
| Decimal.IntToStringInjective | index.jsx:43-45 | Distinct numbers are spelled differently, so a number's spelling determines the number |
| ColorConverter.PairValue | index.jsx:65-67 | Two hex digits read in base 16 give a value in [0, 255] |
| ColorConverter.HexToRgb | index.jsx:62-69 | Parsing succeeds exactly when the input is an optional '#' then six hex digits. Each channel is the base-16 value of its pair of digits and lies in [0, 255] |
| ColorConverter.HexToRgbIgnoresCase | index.jsx:63 | Upper- and lower-case hex digits parse to the same colour (the pattern's case-insensitive flag) |
| ColorConverter.HexToRgbExamples | index.jsx:63 | Three-digit shorthand, a non-hex digit, a doubled '#' and seven digits are rejected. Upper case without '#' is accepted |
| ColorConverter.GreenShade | index.jsx:72 | bright exactly when g > 200, medium exactly when 150 < g <= 200, dark exactly when g <= 150 |
| ColorConverter.ShadeBoundaries | index.jsx:72 | 201 is bright, 200 and 151 are medium, 150 is dark |
| ColorConverter.GreenShadeMonotone | index.jsx:72 | A greener channel never gets a darker shade word |
| ColorConverter.RgbToHex | index.jsx:455-459 | The '#rrggbb' spelling of a colour is a string the parser accepts |
| ColorConverter.HexRoundTrip | index.jsx:62-69 | Parsing the '#rrggbb' spelling of a colour gives back that colour |
| ColorConverter.RgbToHexIsPickerColor | index.jsx:455-459 | The picker's spelling of a colour is '#' and six lower-case hex digits |
| ColorConverter.PickerColorIff | index.jsx:455-459 | A string has the picker's format exactly when it parses and is the picker's spelling of the colour it parses to |
| ColorConverter.HexToRgbCanonical | index.jsx:62-69 | Respelling a parsed colour gives '#' and the input's six digits in lower case, so parsing loses nothing but case and the optional '#' |
| ColorConverter.DefaultBackdropIsMedium | index.jsx:71-72 | The startup background '#00b300' has green channel 179, a medium shade |
| LightingConfig.Get | index.jsx:6-36 | A field can be read exactly when the light has it, and what is read has the field's kind |
| LightingConfig.Extensional | index.jsx:6-36 | A setup is determined by the values of its fields |
| LightingConfig.Update | index.jsx:87-95 | After an update, the named field of the named light holds the new value and every other field of every light is unchanged |
| LightingConfig.UpdateSameValue | index.jsx:87-95 | Storing the value a field already holds leaves the setup equal to what it was |
| LightingConfig.UpdateTwice | index.jsx:87-95 | A second update of the same field overrides the first |
| LightingConfig.ToggleIsUpdate | index.jsx:98-106 | A toggle is the update of the light's enabled flag to the negation of its current value |
| LightingConfig.Toggle | index.jsx:98-106 | The toggled light has an enabled flag. A toggle negates it and leaves every other field of every light unchanged |
| LightingConfig.ToggleTwice | index.jsx:98-106 | Toggling the same light twice restores the setup |
| LightingConfig.Valid | index.jsx:190-472 | Defines validity: every field lies within its control's bounds (slider range and step, option menu, colour picker format). It is a definition with no contract of its own; ValidIffAllInDomain characterises it |
| LightingConfig.ValidIffAllInDomain | index.jsx:190-472 | A setup is valid exactly when every field holds a value its control can produce: slider range and step, option menu, or the colour picker's '#' and six lower-case hex digits |
| LightingConfig.DefaultValid | index.jsx:6-36 | The startup setup lies within every control's bounds |
| LightingConfig.UpdateValid | index.jsx:190-472 | From a valid setup, an update keeps it valid exactly when the new value is one its control can produce |
| LightingConfig.ToggleValid | index.jsx:98-106 | Toggling keeps a valid setup valid |
| LightingConfig.UpdateKeepsUnpickableColor | index.jsx:455-459 | A colour with upper-case digits, which the picker never delivers, is stored as given, and the setup is then invalid |
| LightingConfig.UpdateDoesNotClamp | index.jsx:229-234 | An intensity of 500 is stored as given, and the setup is then invalid. The update does not clamp |
| PromptSynthesis.Strength | index.jsx:43 | The strength word is "strong" exactly when intensity > 65 and "soft" exactly when intensity <= 65, so 65 is soft and 66 is strong |
| PromptSynthesis.KeyClause | index.jsx:43-45 | The key clause begins with "a ", the strength word and a space |
| PromptSynthesis.FillClause | index.jsx:48-52 | The fill clause opens with "Fill light using " and closes with "cm from subject. " |
| PromptSynthesis.RimClause | index.jsx:55-59 | The rim clause opens with "Rim light positioned at " and closes with "cm from subject. " |
| PromptSynthesis.BackdropClause | index.jsx:72-74 | The closing clause opens with the shade word and " green backdrop positioned ", and ends with "cm behind subject." with no trailing space |
| PromptSynthesis.Synthesize | index.jsx:40-74 | Every prompt begins with the preamble followed by "a strong " or "a soft " as the key intensity dictates, and ends with the background clause |
| PromptSynthesis.Prompt | index.jsx:39-77 | Synthesis fails exactly when the background colour does not parse. Otherwise the prompt is the clause concatenation with the shade of the parsed green channel |
| PromptSynthesis.ValidPromptSucceeds | index.jsx:71-72 | A setup within the controls' bounds always yields a prompt |
| PromptSynthesis.FillTemperatureIgnored | index.jsx:48-52 | Changing the fill light's colour temperature never changes the prompt |
| PromptSynthesis.DisablingFillRemovesClause | index.jsx:48-52 | With the fill light on, the prompt is preamble, key clause, fill clause and the rest. Turned off, it is the same text without the fill clause |
| PromptSynthesis.DisablingRimRemovesClause | index.jsx:55-59 | With the rim light on, the prompt is the text up to the rim clause, the rim clause and the background clause. Turned off, it is the same text without the rim clause |
| PromptSynthesis.DefaultKeyText | index.jsx:43-45 | The startup key clause word for word, beginning "a strong softbox" |
| PromptSynthesis.DefaultFillText | index.jsx:48-52 | The startup fill clause word for word |
| PromptSynthesis.DefaultRimText | index.jsx:55-59 | The startup rim clause word for word |
| PromptSynthesis.DefaultBackdropText | index.jsx:74 | The startup background clause word for word, with the shade word "medium" |
| PromptSynthesis.DefaultPrompt | index.jsx:39-77 | The whole startup prompt word for word, in the order key, fill, rim, background |
| Studio.Configurator.constructor | index.jsx:6-36 | The component starts with the startup setup |
| Studio.Configurator.UpdateLightConfig | index.jsx:87-95 | The new state is the update of the old one. The named field holds the value, and every other field of every light keeps its old value |
| Studio.Configurator.ToggleLight | index.jsx:98-106 | The new state is the toggle of the old one, and the light's enabled flag is the negation of what it was |
| Studio.Configurator.GeneratePrompt | index.jsx:39-77 | Appending the pieces one at a time yields exactly the clause concatenation for the current state, or the failure when the background colour does not parse |

## Left out

- The page's rendering (JSX layout, icons, labels) is presentation and is not modelled.
- The studio preview's geometry is not modelled. It uses floating-point trigonometry and style strings.
- Copying the prompt to the clipboard and the timed "copied" indicator are not modelled. They are browser I/O and
  timers.
- The controls' event handlers are not modelled. The values they deliver (after `parseInt` of a slider's text, or from
  the colour picker) are the parameters of `UpdateLightConfig`, and `NaN` is not among them.
- The state hook's deferred, batched application of updates is not modelled: each method changes the state when it is
  called.
- The JavaScript regular-expression engine is not modelled. `HexToRgb` checks the characters directly.
- The exception thrown when the background colour does not parse is not modelled. It is `Failure(InvalidColorFormat)`
  here, returned after the light clauses would have been appended.
- Studio.Configurator.UpdateLightConfig: requires that the value fit the field's kind and that the light have the
  field. JavaScript would also add an unknown key or store a value of another type; the controls never do.
- LightingConfig.Update: same precondition as `UpdateLightConfig`, for the same reason.
- Studio.Configurator.ToggleLight: requires the fill or rim light. On a light without an `enabled` flag, JavaScript
  would add one set to true; no control does that.
- LightingConfig.Toggle: same precondition as `ToggleLight`, for the same reason.
- Decimal.IntToString: renders integers only. Fractional numbers, `NaN` and exponent notation cannot reach the prompt
  from the controls.
- Numbers are unbounded integers. JavaScript's doubles hold every value the controls produce exactly.
