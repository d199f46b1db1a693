/** The region picker: each option of the select box is a region name followed by a
    space and an emoji, and the chosen location is recovered by cutting the option at
    its last space. */
module Regions {
  import opened Text

  const CONTINENTS: seq<string> :=
    ["World", "Asia", "North America", "South America", "Africa", "Europe", "Oceania"]

  /** World map, then the globe emoji showing each region. */
  const CONTINENTS_EMOJI: seq<string> :=
    ["\U{1F5FA}\U{FE0F}", "\U{1F30F}", "\U{1F30E}", "\U{1F30E}", "\U{1F30D}", "\U{1F30D}", "\U{1F30F}"]

  /** `"{0} {1}".format(name, emoji)` */
  function FormatOption(name: string, emoji: string): string {
    name + " " + emoji
  }

  /** The select box options, one per region, in the order of `CONTINENTS`. */
  function SelectboxOptions(): (options: seq<string>)
    ensures |options| == |CONTINENTS|
  {
    seq(|CONTINENTS|, i requires 0 <= i < |CONTINENTS| => FormatOption(CONTINENTS[i], CONTINENTS_EMOJI[i]))
  }

  /** `option[:option.rfind(' ')]` */
  function SelectboxOptionToLocation(option: string): string {
    SliceTo(option, RFind(option, ' '))
  }

  /** Cutting at the last space recovers the name whenever the emoji has no space,
      even for names that contain spaces themselves. */
  lemma LocationRoundTrip(name: string, emoji: string)
    requires ' ' !in emoji
    ensures SelectboxOptionToLocation(FormatOption(name, emoji)) == name
  {
    var option := FormatOption(name, emoji);
    assert option[|name|] == ' ';
    assert forall j :: |name| < j < |option| ==> option[j] == emoji[j - |name| - 1];
    assert RFind(option, ' ') == |name|;
  }

  /** Every option of the select box leads back to its region. */
  lemma EveryOptionLeadsToItsRegion(i: nat)
    requires i < |CONTINENTS|
    ensures SelectboxOptionToLocation(SelectboxOptions()[i]) == CONTINENTS[i]
  {
    assert ' ' !in CONTINENTS_EMOJI[i];
    LocationRoundTrip(CONTINENTS[i], CONTINENTS_EMOJI[i]);
  }

  /** On a text without any space, `rfind` yields -1 and the slice drops the last character. */
  lemma NoSpaceDropsLastChar(option: string)
    requires ' ' !in option && option != []
    ensures SelectboxOptionToLocation(option) == option[..|option| - 1]
  {
  }
}
