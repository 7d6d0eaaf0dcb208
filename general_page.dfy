/** The admin colour settings page: the twelve colours edited locally,
    merged with what the store pushes, reset to the defaults on confirmation,
    and saved when there are unsaved changes. */
module GeneralPage {
  import opened Js
  import CP = ColorProvider

  const SavedAlert := "Color settings saved successfully! Changes will be reflected across the website."
  const FailedAlert := "Error saving settings. Please try again."

  /** The page's own `isLightColor`: the brightness test with no special case
      for the empty string or `#000000`. A colour `#rrggbb` is light exactly
      when 299r + 587g + 114b exceeds 155000. */
  predicate IsLightColor(hex: string)
    ensures CP.IsHexColor(hex) ==> (IsLightColor(hex) <==> CP.BrightBytes(hex))
  {
    if CP.IsHexColor(hex) then CP.BrightnessOfHex(hex); CP.BrightnessAbove155(hex)
    else CP.BrightnessAbove155(hex)
  }

  /** The page and the provider answer alike on every string: the provider's
      special cases are ones the test already calls dark. */
  lemma IsLightColorAgrees(hex: string)
    ensures IsLightColor(hex) <==> CP.IsLightColor(hex)
  {
    if hex == "" {
      CP.EmptyIsDark();
    } else if hex == "#000000" {
      assert CP.IsHexColor(hex);
      CP.BrightnessOfHex(hex);
    }
  }

  /** The swatch's text colour: black on a light colour, white otherwise. */
  function PreviewTextColor(hex: string): (r: string)
    ensures r == "#000000" <==> IsLightColor(hex)
    ensures r == "#000000" || r == "#ffffff"
  {
    if IsLightColor(hex) then "#000000" else "#ffffff"
  }

  class Settings {
    var colorSettings: CP.Colors
    var hasChanges: bool
    var saving: bool
    var loading: bool

    /** The twelve keys never go missing, so every swatch has a colour. */
    predicate Valid()
      reads this
    {
      CP.HasAllKeys(colorSettings)
    }

    constructor ()
      ensures Valid() && colorSettings == CP.Defaults
      ensures !hasChanges && !saving && loading
    {
      colorSettings := CP.Defaults;
      hasChanges := false;
      saving := false;
      loading := true;
      new;
      CP.DefaultsWellFormed();
    }

    /** The `getColorSettings` callback: pushed data is merged over the
        current settings, absent data leaves them alone; loading ends either
        way. Unsaved edits to a key the push carries are overwritten while
        `hasChanges` stays as it was. */
    method ReceiveSettings(data: Option<CP.Colors>)
      requires Valid()
      modifies this
      ensures Valid() && !loading
      ensures data.Some? ==> colorSettings == CP.Merge(old(colorSettings), data.value)
      ensures data.None? ==> colorSettings == old(colorSettings)
      ensures hasChanges == old(hasChanges) && saving == old(saving)
    {
      if data.Some? {
        CP.MergeKeepsKeys(colorSettings, data.value);
        colorSettings := CP.Merge(colorSettings, data.value);
      }
      loading := false;
    }

    /** `handleColorChange`: that key takes the new colour, every other key
        keeps its own, and there are now unsaved changes. */
    method HandleColorChange(key: string, color: string)
      requires Valid()
      modifies this
      ensures Valid() && hasChanges
      ensures colorSettings == old(colorSettings)[key := color]
      ensures saving == old(saving) && loading == old(loading)
    {
      colorSettings := colorSettings[key := color];
      hasChanges := true;
    }

    /** `handleResetToDefaults`, with the answer to the confirmation dialog as
        `confirmed`: the settings become exactly the defaults (any other key is
        dropped) and there are unsaved changes; a refusal changes nothing. */
    method HandleResetToDefaults(confirmed: bool)
      requires Valid()
      modifies this
      ensures Valid()
      ensures confirmed ==> colorSettings == CP.Defaults && hasChanges
      ensures !confirmed ==> colorSettings == old(colorSettings) && hasChanges == old(hasChanges)
      ensures saving == old(saving) && loading == old(loading)
    {
      if confirmed {
        CP.DefaultsWellFormed();
        colorSettings := CP.Defaults;
        hasChanges := true;
      }
    }

    /** `handleSaveSettings`, with the store's answer as `writeOk`: without
        unsaved changes nothing happens; otherwise the settings are written, a
        success clears `hasChanges`, and `saving` ends false on both outcomes. */
    method HandleSaveSettings(writeOk: bool) returns (alert: Option<string>, written: Option<CP.Colors>)
      modifies this
      ensures !old(hasChanges) ==> alert.None? && written.None? && !hasChanges && saving == old(saving)
      ensures old(hasChanges) ==> written == Some(old(colorSettings)) && !saving
      ensures old(hasChanges) && writeOk ==> !hasChanges && alert == Some(SavedAlert)
      ensures old(hasChanges) && !writeOk ==> hasChanges && alert == Some(FailedAlert)
      ensures colorSettings == old(colorSettings) && loading == old(loading)
    {
      if !hasChanges {
        return None, None;
      }
      saving := true;
      written := Some(colorSettings);
      if writeOk {
        hasChanges := false;
        alert := Some(SavedAlert);
      } else {
        alert := Some(FailedAlert);
      }
      saving := false;
    }

    /** The preview swatch's text colour for one key. */
    function Preview(key: string): string
      requires key in colorSettings
      reads this
    {
      PreviewTextColor(colorSettings[key])
    }
  }
}
