/** The analytics rules of `initializePhoneTracking`, the mobile phone
    buttons of `initializeMobileNavigation` and `initializeClinicTracking`.
    A `gtag` call is modelled as the event value it would send; `analytics`
    says whether `gtag` is defined on the page (when it is not, nothing is
    sent). None of these listeners suppresses a link's default action. */
module Tracking {
  import opened Wrappers
  import opened Text

  /** The analytics events the script emits, with their parameters. */
  datatype Event =
    | PhoneClick(eventLabel: string)
    | ClinicWebsiteClick(clinicName: string)
    | ClinicPhoneClick(eventLabel: string, clinicName: string, phoneNumber: string)
    | QrCodeAccess(eventLabel: string)
  {
    /** The `gtag` event name. */
    function Name(): string
    {
      match this
      case PhoneClick(_) => "phone_click"
      case ClinicWebsiteClick(_) => "clinic_website_click"
      case ClinicPhoneClick(_, _, _) => "clinic_phone_click"
      case QrCodeAccess(_) => "qr_code_access"
    }

    /** The `event_category` parameter. */
    function Category(): string
    {
      match this
      case PhoneClick(_) => "contact"
      case ClinicWebsiteClick(_) => "clinic_selection"
      case ClinicPhoneClick(_, _, _) => "clinic_contact"
      case QrCodeAccess(_) => "traffic_source"
    }

    /** The `event_label` parameter. */
    function EventLabel(): string
    {
      match this
      case PhoneClick(l) => l
      case ClinicWebsiteClick(n) => n
      case ClinicPhoneClick(l, _, _) => l
      case QrCodeAccess(l) => l
    }
  }

  const MainNumber := "092-504-2323"
  const SakuranamikiNumber := "092-404-2098"
  const MainName := "はち歯科医院"
  const SakuranamikiName := "桜並木はち歯科医院"
  const GeneralName := "一般"

  /** The clinic a dialled number belongs to. */
  datatype Clinic = Main | Sakuranamiki | General

  /** The number of a `tel:` link: its href with the first `tel:` removed. */
  function PhoneNumber(href: string): (r: string)
    ensures |href| >= 4 && href[..4] == "tel:" ==> r == href[4..]
    ensures !Includes(href, "tel:") ==> r == href
  {
    if |href| >= 4 && href[..4] == "tel:" then
      assert href == "tel:" + href[4..];
      ReplacePrefix("tel:", href[4..]);
      ReplaceFirst(href, "tel:", "")
    else
      ReplaceFirst(href, "tel:", "")
  }

  /** The clinic of a number, first match wins: the main clinic's number,
      then the Sakuranamiki clinic's, then neither. */
  function PhoneClinic(number: string): (c: Clinic)
    ensures c == Main <==> Includes(number, MainNumber)
    ensures c == Sakuranamiki <==> !Includes(number, MainNumber) && Includes(number, SakuranamikiNumber)
    ensures c == General <==> !Includes(number, MainNumber) && !Includes(number, SakuranamikiNumber)
  {
    if Includes(number, MainNumber) then Main
    else if Includes(number, SakuranamikiNumber) then Sakuranamiki
    else General
  }

  /** The `event_label` of each clinic; no two clinics share one. */
  function ClinicLabel(c: Clinic): (r: string)
    ensures r == "hachi_main" <==> c == Main
    ensures r == "hachi_sakuranamiki" <==> c == Sakuranamiki
    ensures r == "general" <==> c == General
  {
    match c
    case Main => "hachi_main"
    case Sakuranamiki => "hachi_sakuranamiki"
    case General => "general"
  }

  /** The `clinic_name` of each clinic; no two clinics share one. */
  function ClinicName(c: Clinic): (r: string)
    ensures r == MainName <==> c == Main
    ensures r == SakuranamikiName <==> c == Sakuranamiki
    ensures r == GeneralName <==> c == General
  {
    match c
    case Main => MainName
    case Sakuranamiki => SakuranamikiName
    case General => GeneralName
  }

  /** The `clinic_phone_click` event for a click on a `tel:` link. */
  function ClinicPhoneEvent(href: string): (e: Event)
    ensures e.ClinicPhoneClick? && e.phoneNumber == PhoneNumber(href)
    ensures e.eventLabel == ClinicLabel(PhoneClinic(e.phoneNumber))
    ensures e.clinicName == ClinicName(PhoneClinic(e.phoneNumber))
  {
    var number := PhoneNumber(href);
    var clinic := PhoneClinic(number);
    ClinicPhoneClick(ClinicLabel(clinic), ClinicName(clinic), number)
  }

  /** For a link `tel:n` the reported number is `n` itself, and its label
      follows the first-match rule on `n`. */
  lemma TelLinkLabel(n: string)
    ensures ClinicPhoneEvent("tel:" + n).phoneNumber == n
    ensures ClinicPhoneEvent("tel:" + n).eventLabel ==
              if Includes(n, MainNumber) then "hachi_main"
              else if Includes(n, SakuranamikiNumber) then "hachi_sakuranamiki"
              else "general"
  {
    ReplacePrefix("tel:", n);
  }

  /** The two clinic numbers map to their own labels: `tel:092-504-2323`
      to `hachi_main`, `tel:092-404-2098` to `hachi_sakuranamiki`. */
  lemma KnownNumbers()
    ensures ClinicPhoneEvent("tel:" + MainNumber).eventLabel == "hachi_main"
    ensures ClinicPhoneEvent("tel:" + SakuranamikiNumber).eventLabel == "hachi_sakuranamiki"
  {
    TelLinkLabel(MainNumber);
    TelLinkLabel(SakuranamikiNumber);
    IncludesItself(MainNumber);
    IncludesItself(SakuranamikiNumber);
    NumbersDiffer();
  }

  lemma IncludesItself(s: string)
    ensures Includes(s, s)
  {
    assert OccursAt(s, s, 0);
  }

  /** The Sakuranamiki number does not contain the main number. */
  lemma NumbersDiffer()
    ensures !Includes(SakuranamikiNumber, MainNumber)
  {
    assert SakuranamikiNumber[4] != MainNumber[4];
    assert SakuranamikiNumber[..|MainNumber|] != MainNumber;
    assert IndexOf(SakuranamikiNumber[1..], MainNumber) == -1;
  }

  /** Every event a click on a `tel:` link sends, in listener order: the
      generic `phone_click` (label `header_phone`), for a button of the
      mobile phone submenu a second one (label `mobile_nav_phone`), then the
      clinic-specific `clinic_phone_click`. */
  function TelLinkClick(href: string, inPhoneSubmenu: bool, analytics: bool): (r: seq<Event>)
    ensures !analytics ==> r == []
    ensures analytics ==> |r| == (if inPhoneSubmenu then 3 else 2)
    ensures analytics ==> r[0] == PhoneClick("header_phone") && r[|r| - 1] == ClinicPhoneEvent(href)
    ensures analytics && inPhoneSubmenu ==> r[1] == PhoneClick("mobile_nav_phone")
    ensures analytics ==> r[|r| - 1].Category() == "clinic_contact"
                          && r[|r| - 1].EventLabel() == ClinicLabel(PhoneClinic(PhoneNumber(href)))
    ensures forall i :: 0 <= i < |r| - 1 ==> r[i].Category() == "contact"
    ensures forall e :: e in r ==> e.Name() in {"phone_click", "clinic_phone_click"}
  {
    if !analytics then []
    else
      var clinic := ClinicPhoneEvent(href);
      assert clinic.Name() == "clinic_phone_click";
      if inPhoneSubmenu then [PhoneClick("header_phone"), PhoneClick("mobile_nav_phone"), clinic]
      else [PhoneClick("header_phone"), clinic]
  }

  /** The clinic of a `hachishika.com` link: the Sakuranamiki site when its
      URL mentions `sakuranamiki`, the main one otherwise. */
  function ClinicSiteName(href: string): (name: string)
    ensures name == SakuranamikiName <==> Includes(href, "sakuranamiki")
    ensures name == MainName <==> !Includes(href, "sakuranamiki")
  {
    if Includes(href, "sakuranamiki") then SakuranamikiName else MainName
  }

  /** The events a click on a clinic site link sends. */
  function ClinicSiteClick(href: string, analytics: bool): (r: seq<Event>)
    ensures analytics ==> r == [ClinicWebsiteClick(ClinicSiteName(href))]
    ensures analytics ==> r[0].Name() == "clinic_website_click" && r[0].Category() == "clinic_selection"
                          && r[0].EventLabel() == ClinicSiteName(href)
    ensures !analytics ==> r == []
  {
    if analytics then [ClinicWebsiteClick(ClinicSiteName(href))] else []
  }

  /** `URLSearchParams.get`: the value of the first parameter called
      `name`, or nothing. The pairs are already decoded. */
  function QueryGet(params: seq<(string, string)>, name: string): (r: Option<string>)
    ensures r.Some? ==> exists i :: 0 <= i < |params| && params[i] == (name, r.value)
                                    && forall j :: 0 <= j < i ==> params[j].0 != name
    ensures r.None? ==> forall i :: 0 <= i < |params| ==> params[i].0 != name
    decreases |params|
  {
    if params == [] then None
    else if params[0].0 == name then Some(params[0].1)
    else
      var r := QueryGet(params[1..], name);
      assert r.Some? ==> exists i :: 1 <= i < |params| && params[i] == (name, r.value)
                                     && forall j :: 0 <= j < i ==> params[j].0 != name by {
        if r.Some? {
          var i :| 0 <= i < |params| - 1 && params[1..][i] == (name, r.value)
                   && forall j :: 0 <= j < i ==> params[1..][j].0 != name;
          assert params[i + 1] == (name, r.value);
          assert forall j :: 0 <= j < i + 1 ==> params[j].0 != name by {
            forall j | 0 <= j < i + 1 ensures params[j].0 != name {
              if j > 0 { assert params[j] == params[1..][j - 1]; }
            }
          }
        }
      }
      r
  }

  /** What the page does on load about QR traffic: the event it sends and
      whether it schedules the delayed scroll to `clinic-selection`. */
  datatype QrOutcome = QrOutcome(events: seq<Event>, scrollScheduled: bool)

  /** `clinic || 'unknown'`: a missing or empty clinic reads as `unknown`. */
  function ClinicOrUnknown(clinic: Option<string>): (r: string)
    ensures clinic.Some? && clinic.value != "" ==> r == clinic.value
    ensures clinic.None? || clinic.value == "" ==> r == "unknown"
  {
    if clinic.Some? && clinic.value != "" then clinic.value else "unknown"
  }

  /** The QR rule: only `source=qr` counts as QR traffic; the event carries
      the clinic parameter (or `unknown`); the scroll is scheduled only when
      the clinic parameter is present and non-empty. */
  function QrAccess(params: seq<(string, string)>, analytics: bool): (r: QrOutcome)
    ensures |r.events| <= 1
    ensures r.events != [] <==> analytics && QueryGet(params, "source") == Some("qr")
    ensures forall e :: e in r.events ==>
              e == QrCodeAccess(ClinicOrUnknown(QueryGet(params, "clinic")))
    ensures forall e :: e in r.events ==>
              e.Name() == "qr_code_access" && e.Category() == "traffic_source"
              && e.EventLabel() == ClinicOrUnknown(QueryGet(params, "clinic"))
    ensures r.scrollScheduled <==>
              QueryGet(params, "source") == Some("qr")
              && QueryGet(params, "clinic").Some? && QueryGet(params, "clinic").value != ""
  {
    var source := QueryGet(params, "source");
    var clinic := QueryGet(params, "clinic");
    if source == Some("qr") then
      QrOutcome(if analytics then [QrCodeAccess(ClinicOrUnknown(clinic))] else [],
                clinic.Some? && clinic.value != "")
    else QrOutcome([], false)
  }

  /** Loading `?source=qr&clinic=sakuranamiki` sends one `qr_code_access`
      event labelled `sakuranamiki` and schedules the scroll. */
  lemma QrScenario()
    ensures QrAccess([("source", "qr"), ("clinic", "sakuranamiki")], true)
            == QrOutcome([QrCodeAccess("sakuranamiki")], true)
  {
    var params := [("source", "qr"), ("clinic", "sakuranamiki")];
    assert QueryGet(params, "source") == Some("qr");
    assert params[1..] == [("clinic", "sakuranamiki")];
    assert QueryGet(params, "clinic") == Some("sakuranamiki");
  }

  /** A scheduled scroll always comes with the event naming that clinic
      when analytics is on. */
  lemma ScrollImpliesLabelledEvent(params: seq<(string, string)>)
    requires QrAccess(params, true).scrollScheduled
    ensures QrAccess(params, true).events == [QrCodeAccess(QueryGet(params, "clinic").value)]
  {
  }
}
