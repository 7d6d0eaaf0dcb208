/** The site-wide colour theme: twelve named colours with defaults, merged
    with the settings pushed from the store, and the views of them the
    storefront's components read (style objects, CSS custom properties and a
    light-or-dark test for contrast). */
module ColorProvider {
  import opened Js
  import opened Text
  import opened Seqs
  import D = Dict

  /** The twelve colour keys, in the order the provider lists them. */
  const ColorKeys: seq<string> := [
    "menuBgColor", "menuTextColor",
    "newsBgColor", "newsTextColor",
    "tableHeadBgColor", "tableHeadTextColor",
    "tableBodyBgColor", "tableBodyTextColor",
    "itemGroupBgColor", "itemGroupTextColor",
    "totalBgColor", "totalTextColor"
  ]

  /** The settings object: colour key to colour string. */
  type Colors = map<string, string>

  /** The initial colours (also the admin page's initial and reset values). */
  const Defaults: Colors := map[
    "menuBgColor" := "#ffffff", "menuTextColor" := "#374151",
    "newsBgColor" := "#f3f4f6", "newsTextColor" := "#111827",
    "tableHeadBgColor" := "#f9fafb", "tableHeadTextColor" := "#374151",
    "tableBodyBgColor" := "#ffffff", "tableBodyTextColor" := "#6b7280",
    "itemGroupBgColor" := "#f8fafc", "itemGroupTextColor" := "#475569",
    "totalBgColor" := "#3b82f6", "totalTextColor" := "#ffffff"
  ]

  /** Every one of the twelve keys has a value. */
  predicate HasAllKeys(c: Colors) {
    forall i :: 0 <= i < |ColorKeys| ==> ColorKeys[i] in c
  }

  /** The twelve keys are distinct, the defaults give each of them a colour of
      the form `#rrggbb`, and the defaults hold no other key. */
  lemma DefaultsWellFormed()
    ensures D.Distinct(ColorKeys)
    ensures HasAllKeys(Defaults)
    ensures forall k :: k in Defaults ==> k in ColorKeys && IsHexColor(Defaults[k])
  {
    ColorKeysDistinct();
    DefaultsAreHex();
  }

  lemma ColorKeysDistinct()
    ensures D.Distinct(ColorKeys)
  {
  }

  lemma DefaultsAreHex()
    ensures forall k :: k in Defaults ==> k in ColorKeys && IsHexColor(Defaults[k])
  {
    assert IsHexColor("#ffffff") by { HexColorByDigits("#ffffff"); }
    assert IsHexColor("#374151") by { HexColorByDigits("#374151"); }
    assert IsHexColor("#f3f4f6") by { HexColorByDigits("#f3f4f6"); }
    assert IsHexColor("#111827") by { HexColorByDigits("#111827"); }
    assert IsHexColor("#f9fafb") by { HexColorByDigits("#f9fafb"); }
    assert IsHexColor("#6b7280") by { HexColorByDigits("#6b7280"); }
    assert IsHexColor("#f8fafc") by { HexColorByDigits("#f8fafc"); }
    assert IsHexColor("#475569") by { HexColorByDigits("#475569"); }
    assert IsHexColor("#3b82f6") by { HexColorByDigits("#3b82f6"); }
  }

  /** A seven-character string `#` followed by six hexadecimal digits. */
  lemma HexColorByDigits(s: string)
    requires |s| == 7 && s[0] == '#'
    requires IsHexDigit(s[1]) && IsHexDigit(s[2]) && IsHexDigit(s[3])
    requires IsHexDigit(s[4]) && IsHexDigit(s[5]) && IsHexDigit(s[6])
    ensures IsHexColor(s)
  {
    forall i | 0 <= i < 6 ensures IsHexDigit(s[1..][i]) {
      assert s[1..][i] == s[i + 1];
    }
  }

  /** `colors.key` on the settings object. */
  function Get(c: Colors, key: string): (r: Option<string>)
    ensures r.Some? <==> key in c
    ensures r.Some? ==> r.value == c[key]
  {
    if key in c then Some(c[key]) else None
  }

  /** `{ ...prev, ...data }`: the pushed fields win, every other field keeps
      its previous value. */
  function Merge(prev: Colors, data: Colors): (r: Colors)
    ensures r.Keys == prev.Keys + data.Keys
    ensures forall k :: k in data ==> r[k] == data[k]
    ensures forall k :: k in prev && k !in data ==> r[k] == prev[k]
  {
    prev + data
  }

  /** A merge never loses one of the twelve keys. */
  lemma MergeKeepsKeys(prev: Colors, data: Colors)
    requires HasAllKeys(prev)
    ensures HasAllKeys(Merge(prev, data))
  {
  }

  /** Merging the same push twice is the same as merging it once, and an
      empty push changes nothing. */
  lemma MergeIdempotent(prev: Colors, data: Colors)
    ensures Merge(Merge(prev, data), data) == Merge(prev, data)
    ensures Merge(prev, map[]) == prev
  {
  }

  /** `colors[colorKey] || '#000000'`. */
  function GetColor(c: Colors, key: string): (r: string)
    ensures key in c && c[key] != "" ==> r == c[key]
    ensures key !in c || c[key] == "" ==> r == "#000000"
    ensures r != ""
  {
    OrStr(Get(c, key), "#000000")
  }

  // ---------------------------------------------------------------------------
  // Style objects and CSS custom properties

  /** `{ backgroundColor, color }`; an absent key leaves the property unset. */
  datatype Style = Style(backgroundColor: Option<string>, color: Option<string>)

  datatype ColorStyles = ColorStyles(menu: Style, news: Style, tableHead: Style,
                                     tableBody: Style, itemGroup: Style, total: Style)

  /** `getColorStyles()`. */
  function Styles(c: Colors): (r: ColorStyles)
    ensures StyleSlots(r) == ReadAll(c, ColorKeys)
  {
    var r := ColorStyles(
      Style(Get(c, "menuBgColor"), Get(c, "menuTextColor")),
      Style(Get(c, "newsBgColor"), Get(c, "newsTextColor")),
      Style(Get(c, "tableHeadBgColor"), Get(c, "tableHeadTextColor")),
      Style(Get(c, "tableBodyBgColor"), Get(c, "tableBodyTextColor")),
      Style(Get(c, "itemGroupBgColor"), Get(c, "itemGroupTextColor")),
      Style(Get(c, "totalBgColor"), Get(c, "totalTextColor")));
    assert StyleSlots(r) == ReadAll(c, ColorKeys) by {
      var slots, read := StyleSlots(r), ReadAll(c, ColorKeys);
      assert |slots| == |read| == 12;
      forall i | 0 <= i < 12 ensures slots[i] == read[i] {
        assert read[i] == Get(c, ColorKeys[i]);
      }
    }
    r
  }

  /** The twelve style slots, section by section, background before text. */
  function StyleSlots(s: ColorStyles): seq<Option<string>> {
    [s.menu.backgroundColor, s.menu.color, s.news.backgroundColor, s.news.color,
     s.tableHead.backgroundColor, s.tableHead.color, s.tableBody.backgroundColor, s.tableBody.color,
     s.itemGroup.backgroundColor, s.itemGroup.color, s.total.backgroundColor, s.total.color]
  }

  /** The values of `keys`, in order. */
  function ReadAll(c: Colors, keys: seq<string>): (r: seq<Option<string>>)
    ensures |r| == |keys|
    ensures forall i :: 0 <= i < |keys| ==> r[i] == Get(c, keys[i])
  {
    if keys == [] then [] else ReadAll(c, keys[..|keys| - 1]) + [Get(c, keys[|keys| - 1])]
  }

  /** Slot `i` of the style object shows colour key `i`: as the keys are
      distinct, each key is exposed exactly once. */
  lemma StylesExposeEachKeyOnce(c: Colors)
    ensures StyleSlots(Styles(c)) == ReadAll(c, ColorKeys)
    ensures D.Distinct(ColorKeys)
  {
    ColorKeysDistinct();
  }

  /** Two settings objects give the same styles exactly when they agree on all
      twelve keys. */
  lemma StylesDetermineKeys(c1: Colors, c2: Colors)
    ensures Styles(c1) == Styles(c2) <==> forall i :: 0 <= i < |ColorKeys| ==> Get(c1, ColorKeys[i]) == Get(c2, ColorKeys[i])
  {
    StylesExposeEachKeyOnce(c1);
    StylesExposeEachKeyOnce(c2);
    if forall i :: 0 <= i < |ColorKeys| ==> Get(c1, ColorKeys[i]) == Get(c2, ColorKeys[i]) {
      assert ReadAll(c1, ColorKeys) == ReadAll(c2, ColorKeys);
    }
  }

  /** The custom property names, in the order `generateCSSVariables` lists them. */
  const CssNames: seq<string> := [
    "--menu-bg-color", "--menu-text-color",
    "--news-bg-color", "--news-text-color",
    "--table-head-bg-color", "--table-head-text-color",
    "--table-body-bg-color", "--table-body-text-color",
    "--item-group-bg-color", "--item-group-text-color",
    "--total-bg-color", "--total-text-color"
  ]

  /** `generateCSSVariables()`: property name and value, in order. */
  function CssVariables(c: Colors): (r: seq<(string, Option<string>)>)
    ensures |r| == |CssNames| == |ColorKeys|
    ensures forall i :: 0 <= i < |r| ==> r[i].0 == CssNames[i] && r[i].1 == Get(c, ColorKeys[i])
  {
    Zip(CssNames, ReadAll(c, ColorKeys))
  }

  function Zip<A, B>(a: seq<A>, b: seq<B>): (r: seq<(A, B)>)
    requires |a| == |b|
    ensures |r| == |a|
    ensures forall i :: 0 <= i < |a| ==> r[i] == (a[i], b[i])
  {
    if a == [] then [] else Zip(a[..|a| - 1], b[..|b| - 1]) + [(a[|a| - 1], b[|b| - 1])]
  }

  /** No two custom properties share a name, so each colour key is exposed
      once and under a name of its own. */
  lemma CssNamesDistinct()
    ensures D.Distinct(CssNames)
  {
  }

  // ---------------------------------------------------------------------------
  // Light or dark

  /** A colour of the form `#rrggbb`. */
  predicate IsHexColor(s: string) {
    |s| == 7 && s[0] == '#' && IsHexDigits(s[1..])
  }

  /** `parseInt(hex.slice(i, i + 2), 16)`. */
  function Channel(hex: string, i: nat): JsNumber {
    ParseHex(Slice(hex, i, i + 2))
  }

  /** `(r * 299 + g * 587 + b * 114) / 1000 > 155`; false when a channel is NaN. */
  predicate BrightnessAbove155(hex: string) {
    var sum := Channel(hex, 1).Times(299.0).Add(Channel(hex, 3).Times(587.0)).Add(Channel(hex, 5).Times(114.0));
    sum.Finite? && sum.n / 1000.0 > 155.0
  }

  /** The provider's `isLightColor`: an empty string and `#000000` are dark.
      A colour `#rrggbb` is light exactly when 299r + 587g + 114b exceeds
      155000; the explicit `#000000` case agrees with the test, which fails on
      zero. */
  predicate IsLightColor(hex: string)
    ensures IsHexColor(hex) ==> (IsLightColor(hex) <==> BrightBytes(hex))
  {
    if hex == "" || hex == "#000000" then false
    else if IsHexColor(hex) then BrightnessOfHex(hex); BrightnessAbove155(hex)
    else BrightnessAbove155(hex)
  }

  /** The byte spelled by the two hexadecimal digits at `i` and `i + 1`. */
  function Byte(hex: string, i: nat): int
    requires i + 1 < |hex|
  {
    HexDigitValue(hex[i]) * 16 + HexDigitValue(hex[i + 1])
  }

  /** For `#rrggbb` the channels are the three bytes. */
  lemma HexChannels(hex: string)
    requires IsHexColor(hex)
    ensures Channel(hex, 1) == Finite(Byte(hex, 1) as real)
    ensures Channel(hex, 3) == Finite(Byte(hex, 3) as real)
    ensures Channel(hex, 5) == Finite(Byte(hex, 5) as real)
  {
    forall i | i in {1, 3, 5}
      ensures Channel(hex, i) == Finite(Byte(hex, i) as real)
    {
      var pair := hex[i..i + 2];
      assert Slice(hex, i, i + 2) == pair;
      assert pair[0] == hex[1..][i - 1] && pair[1] == hex[1..][i];
      ParseHexPair(pair);
    }
  }

  /** The weighted brightness test on `#rrggbb`, with the division cleared. */
  predicate BrightBytes(hex: string)
    requires IsHexColor(hex)
  {
    299 * Byte(hex, 1) + 587 * Byte(hex, 3) + 114 * Byte(hex, 5) > 155000
  }

  /** On a colour `#rrggbb` the brightness test is the byte comparison. */
  lemma BrightnessOfHex(hex: string)
    requires IsHexColor(hex)
    ensures BrightnessAbove155(hex) <==> BrightBytes(hex)
  {
    HexChannels(hex);
  }

  /** The empty string has no channels, so the test alone already calls it dark. */
  lemma EmptyIsDark()
    ensures !BrightnessAbove155("")
  {
    assert Slice("", 1, 3) == "";
  }

  class Provider {
    var colors: Colors
    var loading: bool

    /** The twelve keys never go missing. */
    predicate Valid()
      reads this
    {
      HasAllKeys(colors)
    }

    constructor ()
      ensures Valid() && colors == Defaults && loading
    {
      colors := Defaults;
      loading := true;
      new;
      DefaultsWellFormed();
    }

    /** The `getColorSettings` callback: a pushed object is merged over the
        current colours; spreading an absent one adds nothing. */
    method ReceiveColors(data: Option<Colors>)
      requires Valid()
      modifies this
      ensures Valid() && !loading
      ensures data.Some? ==> colors == Merge(old(colors), data.value)
      ensures data.None? ==> colors == old(colors)
    {
      if data.Some? {
        MergeKeepsKeys(colors, data.value);
        colors := Merge(colors, data.value);
      }
      loading := false;
    }

    function ColorStyles(): ColorStyles
      reads this
    {
      Styles(colors)
    }

    function Color(key: string): string
      reads this
    {
      GetColor(colors, key)
    }

    function CssCustomProperties(): seq<(string, Option<string>)>
      reads this
    {
      CssVariables(colors)
    }

    /** In a valid provider every style slot and every custom property has a
        value. */
    lemma StylesAllSet()
      requires Valid()
      ensures forall i :: 0 <= i < 12 ==> StyleSlots(ColorStyles())[i].Some?
      ensures forall i :: 0 <= i < 12 ==> CssCustomProperties()[i].1.Some?
    {
      StylesExposeEachKeyOnce(colors);
    }
  }
}
