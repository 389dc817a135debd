/** `generateBookingRule`: the booking rule shown for a resort whose server record has none,
    built from the resort's brand and its application type. */
module BrandRules {
  import opened Wrappers
  import opened Strings
  import opened Types

  /** What the application type decides: the general description, the badge prefix and the colours. */
  datatype TypeProfile = TypeProfile(baseDesc: string, badgePrefix: string, theme: Theme)

  /** The `switch` on the application type; `None` stands for an absent value, which, like
      any value other than the three known ones, takes the default branch. */
  function ProfileFor(appType: Option<string>): (p: TypeProfile)
    ensures p.badgePrefix == "Lottery" <==> appType == Some("LOTTERY")
    ensures p.badgePrefix == "FC" <==> appType == Some("FIRST_COME")
    ensures p.badgePrefix == "Approve" <==> appType == Some("APPROVE")
    ensures p.badgePrefix == "General" <==> appType !in {Some("LOTTERY"), Some("FIRST_COME"), Some("APPROVE")}
    ensures p.baseDesc != "" && p.theme.bg != "" && p.theme.text != "" && p.theme.border != "" && p.theme.icon_color != ""
  {
    match appType
    case Some("LOTTERY") =>
      TypeProfile("Applications are accepted 1 month prior. Selection is made by random draw.", "Lottery",
                  Theme("bg-purple-50", "text-purple-700", "border-purple-200", "text-purple-600"))
    case Some("FIRST_COME") =>
      TypeProfile("Direct booking is available. Reservations are confirmed immediately upon booking.", "FC",
                  Theme("bg-blue-50", "text-blue-700", "border-blue-200", "text-blue-600"))
    case Some("APPROVE") =>
      TypeProfile("Submit a request form. Approval from the department head is required.", "Approve",
                  Theme("bg-orange-50", "text-orange-700", "border-orange-200", "text-orange-600"))
    case _ =>
      TypeProfile("Please contact HR for details.", "General",
                  Theme("bg-slate-50", "text-slate-700", "border-slate-200", "text-slate-500"))
  }

  /** The brands the rule knows, as the upper-cased values of the `Brand` enumeration. */
  predicate KnownBrandKey(key: string) {
    key == "SONO" || key == "HANWHA" || key == "KENSINGTON" || key == "LOTTE" || key == "KUMHO"
  }

  /** What the brand decides: the policy text and the badge suffix. */
  datatype BrandPolicy = BrandPolicy(detail: string, badgeSuffix: string)

  const SonoPolicy: BrandPolicy := BrandPolicy(
    "Lottery applications open from the 1st to 10th of the previous month. Unsold rooms open for booking from the 15th.",
    "1st-10th")
  const HanwhaPolicy: BrandPolicy := BrandPolicy(
    "Regular lottery runs until the 10th. Open booking starts on the 20th of the previous month at 9:00 AM.",
    "1st-10th")
  const KensingtonPolicy: BrandPolicy := BrandPolicy(
    "Reservations open 6 weeks in advance on Tuesdays at 09:00 AM.",
    "6 wks prior")
  const LottePolicy: BrandPolicy := BrandPolicy(
    "Lottery applications accepted 2 months in advance. General booking opens on the 1st of the previous month.",
    "2 mon prior")
  const KumhoPolicy: BrandPolicy := BrandPolicy(
    "Booking opens on the 1st day of the previous month at 10:00 AM.",
    "1st of prev")
  const GenericPolicy: BrandPolicy := BrandPolicy(
    "Please check the specific booking policy on the official website.",
    "Check Policy")

  /** The if-chain on the upper-cased brand. */
  function PolicyFor(brandKey: string): (p: BrandPolicy)
    ensures p.badgeSuffix == "Check Policy" <==> !KnownBrandKey(brandKey)
    ensures !KnownBrandKey(brandKey) ==> p == GenericPolicy
    ensures p.detail != "" && p.badgeSuffix != ""
  {
    UpperOfUpper("LOTTE");
    UpperOfUpper("KUMHO");
    if brandKey == "SONO" then SonoPolicy
    else if brandKey == "HANWHA" then HanwhaPolicy
    else if brandKey == "KENSINGTON" then KensingtonPolicy
    else if brandKey == ToUpper("LOTTE") then LottePolicy
    else if brandKey == ToUpper("KUMHO") then KumhoPolicy
    else GenericPolicy
  }

  const NamePrefix: string := "["
  const NameSuffix: string := "] Application Period"

  /** `generateBookingRule(brand, appType)`. */
  function GenerateBookingRule(brand: string, appType: Option<string>): (rule: BookingRule)
    ensures rule.name == NamePrefix + brand + NameSuffix
    ensures rule.badge_text == ProfileFor(appType).badgePrefix + ": " + PolicyFor(ToUpper(brand)).badgeSuffix
    ensures rule.description ==
              ProfileFor(appType).baseDesc + "\n\n[Brand Policy: " + brand + "]\n" + PolicyFor(ToUpper(brand)).detail
    ensures rule.ui_theme == ProfileFor(appType).theme
    ensures rule.ui_theme.bg != "" && rule.ui_theme.text != "" && rule.ui_theme.border != "" && rule.ui_theme.icon_color != ""
  {
    var name := NamePrefix + brand + NameSuffix;
    var profile := ProfileFor(appType);
    var policy := PolicyFor(ToUpper(brand));
    BookingRule(name,
                profile.baseDesc + "\n\n[Brand Policy: " + brand + "]\n" + policy.detail,
                profile.badgePrefix + ": " + policy.badgeSuffix,
                profile.theme)
  }

  /** The brand written in a rule's name, recovered from the name. */
  function BrandOfName(name: string): string
    requires |name| >= |NamePrefix| + |NameSuffix|
  {
    name[|NamePrefix|..|name| - |NameSuffix|]
  }

  /** The rule's name records the brand exactly as given: it can be read back. */
  lemma NameRecordsBrand(brand: string, appType: Option<string>)
    ensures |GenerateBookingRule(brand, appType).name| >= |NamePrefix| + |NameSuffix|
    ensures BrandOfName(GenerateBookingRule(brand, appType).name) == brand
  {
  }

  /** The brand is matched without regard to ASCII letter case: two brands that upper-case to
      the same key get the same badge, the same theme and the same policy text. */
  lemma BrandMatchIgnoresCase(b1: string, b2: string, appType: Option<string>)
    requires ToUpper(b1) == ToUpper(b2)
    ensures GenerateBookingRule(b1, appType).badge_text == GenerateBookingRule(b2, appType).badge_text
    ensures GenerateBookingRule(b1, appType).ui_theme == GenerateBookingRule(b2, appType).ui_theme
    ensures PolicyFor(ToUpper(b1)) == PolicyFor(ToUpper(b2))
  {
  }

  /** A brand spelled in any case of a known brand gets that brand's badge suffix. */
  lemma KnownBrandInAnyCase(brand: string, appType: Option<string>)
    requires ToUpper(brand) == "SONO"
    ensures GenerateBookingRule(brand, appType).badge_text == ProfileFor(appType).badgePrefix + ": 1st-10th"
  {
  }
}
