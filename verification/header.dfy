/** The page-header script shared by the CityCare front-end pages (common.js):
    the alert audience derived from the login session, the theme classes on
    the page body, the navigation links and the login button's input guard.
    The DOM is abstracted to the values these functions compute. */
module Header {
  import opened Outcomes
  import opened Strings
  import opened Records
  import Backend

  // ---------------------------------------------------------------------
  // Alert audience
  // ---------------------------------------------------------------------

  /** The `user` object of a stored session; either member may be missing. */
  datatype SessionUser = SessionUser(role: Option<string>, id: Option<string>)

  /** The session object kept after login: the backend's reply body. */
  datatype Session = Session(user: Option<SessionUser>)

  const PortalPatientPrefix := "USR_PAT_"
  const AlertPatientPrefix := "PAT_"

  /** The audience key alerts are matched against: nothing without a logged-in
      user; "patient:" and the id, with the first "USR_PAT_" in it shortened
      to "PAT_", for a patient; "role:" and the role for anyone else, a
      missing role counting as the empty one. */
  function AudienceForAlerts(session: Option<Session>): (r: Option<string>)
    ensures r.None? <==> session.None? || session.value.user.None?
    ensures r.Some? && session.value.user.value.role.GetOr("") != Backend.PatientRole ==>
      r.value == "role:" + session.value.user.value.role.GetOr("")
    ensures r.Some? && session.value.user.value.role.GetOr("") == Backend.PatientRole ==>
      var id := session.value.user.value.id.GetOr("");
      && ((forall j :: !OccursAt(id, PortalPatientPrefix, j)) ==> r.value == "patient:" + id)
      && forall k :: IsFirstOccurrence(id, PortalPatientPrefix, k) ==>
           r.value == "patient:" + id[..k] + AlertPatientPrefix + id[k + |PortalPatientPrefix|..]
  {
    match session
    case None => None
    case Some(Session(None)) => None
    case Some(Session(Some(u))) =>
      var role := u.role.GetOr("");
      var id := u.id.GetOr("");
      if role == Backend.PatientRole then
        Some("patient:" + ReplaceFirst(id, PortalPatientPrefix, AlertPatientPrefix))
      else Some("role:" + role)
  }

  /** A portal patient id "USR_PAT_<n>" is heard as alert audience
      "patient:PAT_<n>". */
  lemma PortalPatientAudience(rest: string)
    ensures AudienceForAlerts(Some(Session(Some(SessionUser(Some(Backend.PatientRole), Some(PortalPatientPrefix + rest))))))
      == Some("patient:" + AlertPatientPrefix + rest)
  {
    var id := PortalPatientPrefix + rest;
    assert id[..|PortalPatientPrefix|] == PortalPatientPrefix;
    assert IsFirstOccurrence(id, PortalPatientPrefix, 0);
    assert id[..0] == "";
    assert id[|PortalPatientPrefix|..] == rest;
    var replaced := ReplaceFirst(id, PortalPatientPrefix, AlertPatientPrefix);
    assert replaced == AlertPatientPrefix + rest;
    assert "patient:" + replaced == "patient:" + AlertPatientPrefix + rest;
  }

  /** The session stored from a successful backend login: doctors hear
      alerts addressed to "role:doctor", everyone else hears their patient
      key. */
  lemma LoginSessionAudience(req: LoginReq)
    requires Backend.Login(req).Ok?
    ensures var u := Backend.Login(req).value;
      var r := AudienceForAlerts(Some(Session(Some(SessionUser(Some(u.role), Some(u.id))))));
      r == if Backend.IsDoctorId(req.userId) then Some("role:doctor")
           else Some("patient:" + ReplaceFirst(req.userId, PortalPatientPrefix, AlertPatientPrefix))
  {
    var u := Backend.Login(req).value;
    if Backend.IsDoctorId(req.userId) {
      assert u.role == Backend.DoctorRole != Backend.PatientRole;
      assert "role:" + Backend.DoctorRole == "role:doctor";
    } else {
      assert u == User(req.userId, Backend.PatientRole);
    }
  }

  // ---------------------------------------------------------------------
  // Theme
  // ---------------------------------------------------------------------

  const OceanClass := "theme-ocean"
  const SunriseClass := "theme-sunrise"

  /** The class list of the page body after choosing `theme`: both theme
      classes are dropped, then the one named by `theme` is added ("aurora",
      the base look, and any unknown name add none). */
  function SetTheme(classes: set<string>, theme: string): (r: set<string>)
    ensures OceanClass in r <==> theme == "ocean"
    ensures SunriseClass in r <==> theme == "sunrise"
    ensures !(OceanClass in r && SunriseClass in r)
    ensures forall c :: c != OceanClass && c != SunriseClass ==> (c in r <==> c in classes)
  {
    var base := classes - {OceanClass, SunriseClass};
    if theme == "ocean" then base + {OceanClass}
    else if theme == "sunrise" then base + {SunriseClass}
    else base
  }

  /** Only the last theme chosen matters. */
  lemma SetThemeLastWins(classes: set<string>, first: string, second: string)
    ensures SetTheme(SetTheme(classes, first), second) == SetTheme(classes, second)
  {
    var a := SetTheme(SetTheme(classes, first), second);
    var b := SetTheme(classes, second);
    forall c ensures c in a <==> c in b {
      if c == OceanClass || c == SunriseClass {
      } else {
      }
    }
  }

  /** The theme restored when the header is mounted: the stored name, or
      "aurora" when storage holds nothing (or only the empty string). */
  function SavedTheme(stored: Option<string>): (t: string)
    ensures t != ""
    ensures stored.Some? && stored.value != "" ==> t == stored.value
    ensures stored.None? || stored.value == "" ==> t == "aurora" && SetTheme({}, t) == {}
  {
    match stored
    case Some(s) => if s != "" then s else "aurora"
    case None => "aurora"
  }

  // ---------------------------------------------------------------------
  // Navigation
  // ---------------------------------------------------------------------

  datatype NavItem = NavItem(key: string, href: string, text: string)

  /** A navigation link: target, caption and class name ("" when unset). */
  datatype NavLink = NavLink(href: string, text: string, className: string)

  /** The header's six navigation entries, in order. */
  const NavItems: seq<NavItem> := [
    NavItem("home", "index.html", "Home"),
    NavItem("map", "map.html", "Map"),
    NavItem("patients", "patients.html", "Patients"),
    NavItem("schedule", "schedule.html", "Scheduling"),
    NavItem("sharing", "sharing.html", "Data Sharing"),
    NavItem("alerts", "alerts.html", "Alerts")
  ]

  /** A link marked with class "active" exactly when `active` holds. */
  function MakeNavLink(href: string, text: string, active: bool): (a: NavLink)
    ensures a.href == href && a.text == text
    ensures a.className == "active" <==> active
    ensures !active ==> a.className == ""
  {
    NavLink(href, text, if active then "active" else "")
  }

  /** The navigation bar `mountHeader(active)` builds: one link per entry,
      marked active exactly when its key is the page key passed in (no key,
      as in the script's own `mountHeader()` call, marks none). */
  function NavBar(active: Option<string>): (links: seq<NavLink>)
    ensures |links| == |NavItems|
    ensures forall i :: 0 <= i < |links| ==>
      links[i].href == NavItems[i].href && links[i].text == NavItems[i].text
    ensures forall i :: 0 <= i < |links| ==>
      (links[i].className == "active" <==> active == Some(NavItems[i].key))
    ensures forall i, j :: 0 <= i < j < |links| && links[i].className == "active" ==>
      links[j].className != "active"
    ensures active.None? ==> forall i :: 0 <= i < |links| ==> links[i].className == ""
  {
    assert forall i, j :: 0 <= i < j < |NavItems| ==> NavItems[i].key != NavItems[j].key;
    seq(|NavItems|, i requires 0 <= i < |NavItems| =>
      MakeNavLink(NavItems[i].href, NavItems[i].text, active == Some(NavItems[i].key)))
  }

  // ---------------------------------------------------------------------
  // Login button
  // ---------------------------------------------------------------------

  /** What a click on the header's login button does. */
  datatype LoginAction =
    | PromptForCredentials     // alert "Enter user & PIN", no request
    | SendLogin(req: LoginReq) // POST /auth/login with the trimmed values

  /** The click handler: a missing input counts as empty; the trimmed user
      and PIN are both required before any request is sent. */
  function LoginClick(userInput: Option<string>, pinInput: Option<string>): (act: LoginAction)
    ensures act.SendLogin? <==> !AllSpace(userInput.GetOr("")) && !AllSpace(pinInput.GetOr(""))
    ensures act.SendLogin? ==>
      && act.req.userId != "" && !IsSpace(act.req.userId[0]) && !IsSpace(act.req.userId[|act.req.userId| - 1])
      && act.req.pin != "" && !IsSpace(act.req.pin[0]) && !IsSpace(act.req.pin[|act.req.pin| - 1])
    ensures act.SendLogin? ==>
      act.req == LoginReq(Trim(userInput.GetOr("")), Trim(pinInput.GetOr("")))
    ensures act.SendLogin? ==>
      |act.req.userId| <= |userInput.GetOr("")| && |act.req.pin| <= |pinInput.GetOr("")|
  {
    var userText := userInput.GetOr("");
    var pinText := pinInput.GetOr("");
    var user := Trim(userText);
    var pin := Trim(pinText);
    if user == "" || pin == "" then PromptForCredentials
    else SendLogin(LoginReq(user, pin))
  }
}
