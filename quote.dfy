/** The service quote calculator of the public site (`calculatePrice` and
    `updateServiceRecommendations` in main.js): fixed catalog tables, the
    remote-support flat rate, the same-day surcharge rounded to whole
    dollars, completion times and recommendation cards. */
module Quote {
  import opened Text
  import opened Money

  datatype Service = RemoteSupport | Diagnostic | VirusRemoval | PerformanceOptimization | SsdUpgrade
                   | RamUpgrade | NetworkSetup | DataRecovery | CustomBuild

  datatype Urgency = Standard | SameDay

  /** The estimate display before both choices are made. */
  const SelectPrompt: string := "Select options above"

  /** `basePrices[service] || 100` for a value outside the catalog. */
  const FallbackBase: nat := 100

  /** The option value of a service in the service select. */
  function ServiceKey(s: Service): string {
    match s
    case RemoteSupport => "remote-support"
    case Diagnostic => "diagnostic"
    case VirusRemoval => "virus-removal"
    case PerformanceOptimization => "performance-optimization"
    case SsdUpgrade => "ssd-upgrade"
    case RamUpgrade => "ram-upgrade"
    case NetworkSetup => "network-setup"
    case DataRecovery => "data-recovery"
    case CustomBuild => "custom-build"
  }

  /** The catalog entry a select value names, if any. */
  function ServiceOf(value: string): Option<Service> {
    if value == "remote-support" then Some(RemoteSupport)
    else if value == "diagnostic" then Some(Diagnostic)
    else if value == "virus-removal" then Some(VirusRemoval)
    else if value == "performance-optimization" then Some(PerformanceOptimization)
    else if value == "ssd-upgrade" then Some(SsdUpgrade)
    else if value == "ram-upgrade" then Some(RamUpgrade)
    else if value == "network-setup" then Some(NetworkSetup)
    else if value == "data-recovery" then Some(DataRecovery)
    else if value == "custom-build" then Some(CustomBuild)
    else None
  }

  function UrgencyOf(value: string): Option<Urgency> {
    if value == "standard" then Some(Standard) else if value == "same-day" then Some(SameDay) else None
  }

  /** Every catalog service is found again by its option value. */
  lemma ServiceKeyRoundTrip(s: Service)
    ensures ServiceOf(ServiceKey(s)) == Some(s)
  {
    match s
    case RemoteSupport =>
    case Diagnostic =>
    case VirusRemoval =>
    case PerformanceOptimization =>
    case SsdUpgrade =>
      assert "ssd-upgrade"[0] != "ram-upgrade"[0];
    case RamUpgrade =>
    case NetworkSetup =>
      assert "network-setup"[0] != "virus-removal"[0];
    case DataRecovery =>
      assert "data-recovery"[0] != "virus-removal"[0] && "data-recovery"[0] != "network-setup"[0];
    case CustomBuild =>
  }

  /** `basePrices`. */
  function BasePrice(s: Service): nat {
    match s
    case RemoteSupport => 80
    case Diagnostic => 125
    case VirusRemoval => 200
    case PerformanceOptimization => 175
    case SsdUpgrade => 225
    case RamUpgrade => 150
    case NetworkSetup => 300
    case DataRecovery => 450
    case CustomBuild => 450
  }

  /** `urgencyMultipliers`: same-day is ten percent more. */
  function Multiplier(u: Urgency): real {
    match u
    case Standard => 1.0
    case SameDay => 1.1
  }

  /** `Math.round`: the nearest integer, halves rounded up. */
  function RoundHalfUp(x: real): (r: int)
    ensures x - 0.5 < r as real <= x + 0.5
  {
    (x + 0.5).Floor
  }

  /** The base price used for a select value. */
  function BaseFor(service: string): nat {
    match ServiceOf(service)
    case Some(s) => BasePrice(s)
    case None => FallbackBase
  }

  /** The multiplier used for a select value. */
  function MultiplierFor(urgency: string): real {
    match UrgencyOf(urgency)
    case Some(u) => Multiplier(u)
    case None => 1.0
  }

  /** The quoted total in whole dollars; none until both choices are made. */
  function Price(service: string, urgency: string): Option<int> {
    if service == "" || urgency == "" then None
    else if service == ServiceKey(RemoteSupport) then Some(BaseFor(service))
    else Some(RoundHalfUp(BaseFor(service) as real * MultiplierFor(urgency)))
  }

  /** A price exists exactly when both choices are made. */
  lemma {:induction false} PriceIffChosen(service: string, urgency: string)
    ensures Price(service, urgency).Some? <==> service != "" && urgency != ""
  {
  }

  /** Remote support is the flat 80 for every urgency. */
  lemma {:induction false} RemoteIsFlat(urgency: string)
    requires urgency != ""
    ensures Price(ServiceKey(RemoteSupport), urgency) == Some(80)
  {
    ServiceKeyRoundTrip(RemoteSupport);
  }

  /** Any other choice is the base times the multiplier, within half a dollar. */
  lemma {:induction false} PriceNearExact(service: string, urgency: string)
    requires service != "" && urgency != "" && service != ServiceKey(RemoteSupport)
    ensures var p, x := Price(service, urgency).value, BaseFor(service) as real * MultiplierFor(urgency);
            x - 0.5 < p as real <= x + 0.5
  {
  }

  /** A standard quote is the catalog base price; outside the catalog it is 100. */
  lemma {:induction false} StandardIsBase(service: string)
    requires service != ""
    ensures Price(service, "standard") == Some(BaseFor(service))
    ensures ServiceOf(service).None? ==> Price(service, "standard") == Some(FallbackBase)
  {
    assert UrgencyOf("standard") == Some(Standard);
    var b := BaseFor(service) as real;
    assert b * 1.0 == b;
  }

  /** An urgency outside the table quotes like a standard one. */
  lemma {:induction false} UnknownUrgencyIsStandard(service: string, urgency: string)
    requires service != "" && urgency != "" && UrgencyOf(urgency).None?
    ensures Price(service, urgency) == Price(service, "standard")
  {
    StandardIsBase(service);
    var b := BaseFor(service) as real;
    assert b * 1.0 == b;
  }

  /** A same-day quote never costs less than the standard one. */
  lemma {:induction false} SameDayNotCheaper(service: string)
    requires service != ""
    ensures Price(service, "same-day").value >= Price(service, "standard").value
  {
    StandardIsBase(service);
    assert UrgencyOf("same-day") == Some(SameDay);
    var b := BaseFor(service) as real;
    assert b * 1.1 >= b;
  }

  /** The same-day quote of each catalog service. */
  function SameDayQuote(s: Service): nat {
    match s
    case RemoteSupport => 80
    case Diagnostic => 138
    case VirusRemoval => 220
    case PerformanceOptimization => 193
    case SsdUpgrade => 248
    case RamUpgrade => 165
    case NetworkSetup => 330
    case DataRecovery => 495
    case CustomBuild => 495
  }

  /** The same-day quotes are the table above; half dollars round up. */
  lemma {:induction false} SameDayQuotes(s: Service)
    ensures Price(ServiceKey(s), "same-day") == Some(SameDayQuote(s))
  {
    ServiceKeyRoundTrip(s);
    assert UrgencyOf("same-day") == Some(SameDay);
    assert ServiceKey(s) != "";
    if s != RemoteSupport {
      assert ServiceKey(s) != ServiceKey(RemoteSupport) by {
        ServiceKeyRoundTrip(RemoteSupport);
      }
    }
  }

  /** `completionTimes[service][urgency]`. */
  function CompletionTime(s: Service, u: Urgency): string {
    match (s, u)
    case (RemoteSupport, Standard) => "Connect in minutes - work completed within 1-2 hours"
    case (RemoteSupport, SameDay) => "Connect instantly - priority support"
    case (Diagnostic, Standard) => "2-4 hours for complete system analysis"
    case (Diagnostic, SameDay) => "1-2 hours with priority scheduling"
    case (VirusRemoval, Standard) => "4-8 hours for thorough cleaning and protection setup"
    case (VirusRemoval, SameDay) => "2-4 hours with expedited service"
    case (PerformanceOptimization, Standard) => "3-6 hours for complete system optimization"
    case (PerformanceOptimization, SameDay) => "2-3 hours with priority service"
    case (SsdUpgrade, Standard) => "Same day service - 2-4 hours including data migration"
    case (SsdUpgrade, SameDay) => "1-2 hours with priority installation"
    case (RamUpgrade, Standard) => "Same day service - 1-2 hours installation"
    case (RamUpgrade, SameDay) => "30-60 minutes with priority service"
    case (NetworkSetup, Standard) => "4-6 hours for complete network configuration"
    case (NetworkSetup, SameDay) => "2-3 hours with expedited setup"
    case (DataRecovery, Standard) => "24-72 hours depending on drive condition"
    case (DataRecovery, SameDay) => "4-12 hours for urgent recovery attempts"
    case (CustomBuild, Standard) => "2-3 days for complete build and testing"
    case (CustomBuild, SameDay) => "Same day build available for standard configurations"
  }

  /** The completion text for two select values, when the catalog has one. */
  function CompletionFor(service: string, urgency: string): (t: Option<string>)
    ensures t.Some? <==> ServiceOf(service).Some? && UrgencyOf(urgency).Some?
  {
    match (ServiceOf(service), UrgencyOf(urgency))
    case (Some(s), Some(u)) => Some(CompletionTime(s, u))
    case _ => None
  }

  /** Display names (`serviceNames`). */
  function ServiceName(s: Service): string {
    match s
    case RemoteSupport => "Remote Support"
    case Diagnostic => "Computer Diagnostic"
    case VirusRemoval => "Virus Removal"
    case PerformanceOptimization => "Performance Optimization"
    case SsdUpgrade => "SSD Upgrade"
    case RamUpgrade => "RAM Upgrade"
    case NetworkSetup => "Network Setup"
    case DataRecovery => "Data Recovery"
    case CustomBuild => "Custom PC Build"
  }

  datatype Recommendation = Recommendation(service: Service, reason: string)

  /** `serviceRecommendations`, in catalog order. */
  function Recommendations(s: Service): seq<Recommendation> {
    match s
    case RemoteSupport => [Recommendation(PerformanceOptimization, "Often needed after remote fixes"),
                           Recommendation(VirusRemoval, "Common remote support request")]
    case Diagnostic => [Recommendation(SsdUpgrade, "Most common performance improvement"),
                        Recommendation(PerformanceOptimization, "Usually follows diagnostic")]
    case VirusRemoval => [Recommendation(PerformanceOptimization, "Restore optimal performance"),
                          Recommendation(RemoteSupport, "Ongoing protection monitoring")]
    case PerformanceOptimization => [Recommendation(SsdUpgrade, "Best performance boost available"),
                                     Recommendation(RamUpgrade, "Complement optimization efforts")]
    case SsdUpgrade => [Recommendation(PerformanceOptimization, "Maximize your new SSD performance"),
                        Recommendation(RamUpgrade, "Complete performance package")]
    case RamUpgrade => [Recommendation(SsdUpgrade, "Ultimate performance combination"),
                        Recommendation(PerformanceOptimization, "Optimize for new hardware")]
    case NetworkSetup => [Recommendation(RemoteSupport, "Ongoing network maintenance"),
                          Recommendation(Diagnostic, "Ensure all devices are optimized")]
    case DataRecovery => [Recommendation(SsdUpgrade, "Prevent future data loss"),
                          Recommendation(Diagnostic, "Identify what caused the failure")]
    case CustomBuild => [Recommendation(PerformanceOptimization, "Optimize your new system"),
                         Recommendation(NetworkSetup, "Professional network integration")]
  }

  /** Every service has two suggestions, neither of them itself. */
  lemma {:induction false} RecommendationsShape(s: Service)
    ensures |Recommendations(s)| == 2
    ensures forall i :: 0 <= i < 2 ==> Recommendations(s)[i].service != s
  {
  }

  /** A rendered recommendation: title, reason, badge and the `popular` class. */
  datatype Card = Card(title: string, reason: string, badge: string, popular: bool)

  function BadgeFor(index: nat): string {
    if index == 0 then "Recommended" else "Popular"
  }

  function CardFor(rec: Recommendation, index: nat): Card {
    Card(ServiceName(rec.service), rec.reason, BadgeFor(index), index == 0)
  }

  /** The cards `updateServiceRecommendations` appends, one per suggestion. */
  function Cards(recs: seq<Recommendation>): (cards: seq<Card>)
    ensures |cards| == |recs|
    ensures forall i :: 0 <= i < |recs| ==> cards[i] == CardFor(recs[i], i)
  {
    if recs == [] then [] else Cards(recs[..|recs| - 1]) + [CardFor(recs[|recs| - 1], |recs| - 1)]
  }

  /** Only the first card is highlighted and badged "Recommended"; the cards
      keep the catalog's order and reasons. */
  lemma {:induction false} FirstCardRecommended(recs: seq<Recommendation>)
    ensures var cards := Cards(recs);
            forall i :: 0 <= i < |cards| ==>
              && (cards[i].popular <==> i == 0)
              && (cards[i].badge == "Recommended" <==> i == 0)
              && cards[i].title == ServiceName(recs[i].service) && cards[i].reason == recs[i].reason
  {
    assert "Popular" != "Recommended" by {
      assert |"Popular"| != |"Recommended"|;
    }
  }

  /** The estimate panel: the price text, the completion line and the cards. */
  datatype QuoteView = QuoteView(estimate: string, completionShown: bool, completionText: string,
                                 cards: seq<Card>)

  /** `calculatePrice` as a change of the panel. Without both choices only the
      prompt and a hidden completion line; otherwise the formatted price,
      the completion line when the catalog has one and the suggestions for a
      catalog service. What is not set keeps its previous state. */
  function CalculatePrice(view: QuoteView, service: string, urgency: string): QuoteView {
    match Price(service, urgency)
    case None => view.(estimate := SelectPrompt, completionShown := false)
    case Some(total) =>
      var timed := match CompletionFor(service, urgency)
                   case Some(t) => view.(completionShown := true, completionText := t)
                   case None => view;
      var suggested := match ServiceOf(service)
                       case Some(s) => timed.(cards := Cards(Recommendations(s)))
                       case None => timed;
      suggested.(estimate := FormatCurrency(total as real))
  }

  /** Without both choices the prompt shows, the completion line is hidden
      and the suggestions stay. */
  lemma {:induction false} QuoteWaitsForChoices(view: QuoteView, service: string, urgency: string)
    requires service == "" || urgency == ""
    ensures var v := CalculatePrice(view, service, urgency);
            v.estimate == SelectPrompt && !v.completionShown && v.cards == view.cards
  {
  }

  /** With both choices the estimate reads back as the price, the completion
      line shows exactly the catalog's text (or keeps its state), and a
      catalog service replaces the suggestions. */
  lemma {:induction false} QuoteShowsPrice(view: QuoteView, service: string, urgency: string)
    requires service != "" && urgency != ""
    ensures var v := CalculatePrice(view, service, urgency);
            && ParseAmount(v.estimate) == Price(service, urgency).value as real
            && (CompletionFor(service, urgency).Some? ==>
                  v.completionShown && v.completionText == CompletionFor(service, urgency).value)
            && (CompletionFor(service, urgency).None? ==>
                  v.completionShown == view.completionShown && v.completionText == view.completionText)
            && (ServiceOf(service).Some? ==> v.cards == Cards(Recommendations(ServiceOf(service).value)))
            && (ServiceOf(service).None? ==> v.cards == view.cards)
  {
    var total := Price(service, urgency).value;
    ParseFormatCurrency(total as real);
    RoundCentsOfCents(100 * total);
    assert (100 * total) as real / 100.0 == total as real;
  }
}
