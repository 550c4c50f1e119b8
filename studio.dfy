/**
 * The configurator component: the current lighting setup held as mutable
 * state, the two edits its controls make, and prompt generation, which
 * appends the prompt text one piece at a time.
 */
module Studio {
  import opened Wrappers
  import opened Decimal
  import opened ColorConverter
  import opened LightingConfig
  import opened PromptSynthesis

  class Configurator {
    var mainLight: KeyLight
    var fillLight: FillLight
    var rimLight: RimLight
    var background: Backdrop

    /** The current state as a configuration value. */
    function Snapshot(): Config
      reads this
    {
      Config(mainLight, fillLight, rimLight, background)
    }

    /** The component starts out with the default setup. */
    constructor()
      ensures Snapshot() == Default
    {
      mainLight := Default.mainLight;
      fillLight := Default.fillLight;
      rimLight := Default.rimLight;
      background := Default.background;
    }

    /** Stores `value` under `light`.`param`; every other field keeps its value. */
    method UpdateLightConfig(light: LightName, param: Param, value: Value)
      requires Fits(light, param, value)
      modifies this
      ensures Snapshot() == Update(old(Snapshot()), light, param, value)
      ensures Get(Snapshot(), light, param) == Some(value)
      ensures forall l, p :: (l, p) != (light, param) ==> Get(Snapshot(), l, p) == Get(old(Snapshot()), l, p)
    {
      match light {
        case Main => mainLight := KeySet(mainLight, param, value);
        case Fill => fillLight := FillSet(fillLight, param, value);
        case Rim => rimLight := RimSet(rimLight, param, value);
        case Background => background := BackdropSet(background, param, value);
      }
    }

    /** Flips the `enabled` flag of the fill or rim light; nothing else changes. */
    method ToggleLight(light: LightName)
      requires HasSwitch(light)
      modifies this
      ensures Snapshot() == Toggle(old(Snapshot()), light)
      ensures Get(Snapshot(), light, Enabled) == Some(Flag(!Get(old(Snapshot()), light, Enabled).value.b))
    {
      if light == Fill {
        fillLight := fillLight.(enabled := !fillLight.enabled);
      } else {
        rimLight := rimLight.(enabled := !rimLight.enabled);
      }
    }

    /**
     * Builds the prompt for the current state by appending the key light's
     * pieces, the fill and rim lights' pieces when enabled, and the
     * background's piece; fails when the background colour does not parse.
     */
    method GeneratePrompt() returns (r: Result<string, PromptError>)
      ensures r == Prompt(Snapshot())
    {
      var prompt := Preamble;

      var strength := if mainLight.intensity > 65 then "strong" else "soft";
      prompt := prompt + ("a " + strength + " " + (mainLight.fixture + " as the key light positioned at " + IntToString(mainLight.height) + "cm height, "));
      prompt := prompt + (IntToString(mainLight.angle) + "° angle, with " + IntToString(mainLight.color) + "K color temperature, ");
      prompt := prompt + (IntToString(mainLight.distance) + "cm from subject. ");
      Regroup3(Preamble, KeyHeightPart(mainLight), KeyAnglePart(mainLight), KeyDistancePart(mainLight));
      ghost var upToKey := Preamble + KeyClause(mainLight);
      assert prompt == upToKey;

      if fillLight.enabled {
        prompt := prompt + ("Fill light using " + fillLight.fixture + " at " + IntToString(fillLight.height) + "cm height, ");
        prompt := prompt + (IntToString(fillLight.angle) + "° angle, at " + IntToString(fillLight.intensity) + "% intensity, ");
        prompt := prompt + (IntToString(fillLight.distance) + "cm from subject. ");
        Regroup3(upToKey, FillHeightPart(fillLight), FillAnglePart(fillLight), FillDistancePart(fillLight));
      } else {
        AppendEmpty(upToKey);
      }
      ghost var fill := Optional(fillLight.enabled, FillClause(fillLight));
      assert prompt == upToKey + fill;

      if rimLight.enabled {
        prompt := prompt + ("Rim light positioned at " + IntToString(rimLight.height) + "cm height, ");
        prompt := prompt + (IntToString(rimLight.angle) + "° angle, at " + IntToString(rimLight.intensity) + "% intensity, ");
        prompt := prompt + (IntToString(rimLight.color) + "K color temperature, " + IntToString(rimLight.distance) + "cm from subject. ");
        Regroup3(upToKey + fill, RimHeightPart(rimLight), RimAnglePart(rimLight), RimDistancePart(rimLight));
      } else {
        AppendEmpty(upToKey + fill);
      }
      ghost var rim := Optional(rimLight.enabled, RimClause(rimLight));
      assert prompt == upToKey + fill + rim;

      var rgb := HexToRgb(background.color);
      if rgb.None? {
        return Failure(InvalidColorFormat);
      }
      var shade := GreenShade(rgb.value.g);
      prompt := prompt + (ShadeName(shade) + " green backdrop positioned " + IntToString(background.distance) + "cm behind subject.");
      Regroup4(Preamble, KeyClause(mainLight), fill, rim, BackdropClause(shade, background));
      assert prompt == Synthesize(Snapshot(), shade);
      return Success(prompt);
    }
  }
}
