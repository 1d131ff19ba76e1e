/**
 * The process banner: the title and colours of the banner drawn above a
 * process, and the NINA split into one box per character.
 */
module ProcessBanner {
  import opened Models
  import opened ApiConfig

  /** `nina.split('')`: one single-character string per character, in order. */
  function FormatNina(nina: string): (boxes: seq<string>)
    ensures |boxes| == |nina|
    ensures forall i :: 0 <= i < |nina| ==> boxes[i] == [nina[i]]
  {
    seq(|nina|, i requires 0 <= i < |nina| => [nina[i]])
  }

  /** The strings of a list, joined with nothing between them. */
  function Concat(parts: seq<string>): string {
    if parts == [] then [] else parts[0] + Concat(parts[1..])
  }

  /** Joining the boxes gives back the NINA. */
  lemma {:induction false} FormatNinaJoins(nina: string)
    ensures Concat(FormatNina(nina)) == nina
  {
    if nina != [] {
      FormatNinaJoins(nina[1..]);
      assert FormatNina(nina)[1..] == FormatNina(nina[1..]);
      assert nina == [nina[0]] + nina[1..];
    }
  }

  /** `getProcessTitle`: the type's display name, or its name when the display name is empty. */
  function GetProcessTitle(process: Process): (title: string)
    ensures var config := GetProcessTypeConfig(process.processType);
      (config.displayName != "" ==> title == config.displayName)
      && (config.displayName == "" ==> title == config.name)
  {
    var config := GetProcessTypeConfig(process.processType);
    if config.displayName != "" then config.displayName else config.name
  }

  /** Every shipped type has a display name, so the title is always that display name. */
  lemma ShippedTitleIsDisplayName(process: Process)
    ensures GetProcessTitle(process) == GetProcessTypeConfig(process.processType).displayName
    ensures GetProcessTitle(process) != ""
  {
    match process.processType
    case Birth =>
      assert GetProcessTypeConfig(Birth) == BirthConfig;
    case Marriage =>
      assert GetProcessTypeConfig(Marriage) == MarriageConfig;
    case Death =>
      assert GetProcessTypeConfig(Death) == DeathConfig;
  }

  /** `getBannerBackgroundStyle`: the type's background, unchanged. */
  function GetBannerBackgroundStyle(process: Process): (style: string)
    ensures style == GetProcessTypeConfig(process.processType).backgroundColor
  {
    GetProcessTypeConfig(process.processType).backgroundColor
  }

  const BorderPrefix: string := "4px solid "

  /** `getBannerBorderStyle`: a four-pixel solid border in the type's border colour. */
  function GetBannerBorderStyle(process: Process): (style: string)
    ensures |style| == |BorderPrefix| + |GetProcessTypeConfig(process.processType).borderColor|
    ensures style[..|BorderPrefix|] == BorderPrefix
    ensures style[|BorderPrefix|..] == GetProcessTypeConfig(process.processType).borderColor
  {
    BorderPrefix + GetProcessTypeConfig(process.processType).borderColor
  }

  /** With the shipped tables the border is drawn in the type's own colour. */
  lemma ShippedBorderUsesTypeColour(process: Process)
    ensures GetBannerBorderStyle(process)[|BorderPrefix|..] == GetProcessTypeConfig(process.processType).color
  {
    match process.processType
    case Birth =>
      assert GetProcessTypeConfig(Birth) == BirthConfig;
    case Marriage =>
      assert GetProcessTypeConfig(Marriage) == MarriageConfig;
    case Death =>
      assert GetProcessTypeConfig(Death) == DeathConfig;
  }
}
