/**
 * The constant tables of the client: the seven roles, the navigation links
 * of each role and the five roadmap phases with their TRL levels and default
 * key activities.
 */
module Constants {
  import opened Wrappers
  import opened Text

  /** The keys of `ROLES`. */
  datatype Role = Innovator | Principal | Coordinator | SuperAdmin | Mentor | TeamMember | InternalMentor

  const AllRoles: seq<Role> :=
    [Innovator, Principal, Coordinator, SuperAdmin, Mentor, TeamMember, InternalMentor]

  /** The value of `ROLES.<key>`: the role string carried in `?role=` query parameters. */
  function RoleName(r: Role): string
  {
    match r
    case Innovator => "innovator"
    case Principal => "college_admin"
    case Coordinator => "ttc_coordinator"
    case SuperAdmin => "super_admin"
    case Mentor => "mentor"
    case TeamMember => "team_member"
    case InternalMentor => "internal_mentor"
  }

  /** The role whose value is `s`, if any. */
  function ParseRole(s: string): (r: Option<Role>)
    ensures r.Some? ==> RoleName(r.value) == s
  {
    if s == "innovator" then Some(Innovator)
    else if s == "college_admin" then Some(Principal)
    else if s == "ttc_coordinator" then Some(Coordinator)
    else if s == "super_admin" then Some(SuperAdmin)
    else if s == "mentor" then Some(Mentor)
    else if s == "team_member" then Some(TeamMember)
    else if s == "internal_mentor" then Some(InternalMentor)
    else None
  }

  /** Every role value reads back as its role, so the seven values are pairwise distinct. */
  lemma RoleNameRoundTrip(r: Role)
    ensures ParseRole(RoleName(r)) == Some(r)
  {
    match r
    case Innovator =>
    case Principal =>
      assert "college_admin"[0] != "innovator"[0];
    case Coordinator =>
      assert "ttc_coordinator"[0] != "innovator"[0];
      assert "ttc_coordinator"[0] != "college_admin"[0];
    case SuperAdmin =>
      assert "super_admin"[0] != "innovator"[0];
      assert "super_admin"[0] != "college_admin"[0];
      assert "super_admin"[0] != "ttc_coordinator"[0];
    case Mentor =>
      assert "mentor"[0] != "innovator"[0];
      assert "mentor"[0] != "college_admin"[0];
      assert "mentor"[0] != "ttc_coordinator"[0];
      assert "mentor"[0] != "super_admin"[0];
    case TeamMember =>
      assert "team_member"[0] != "innovator"[0];
      assert "team_member"[0] != "college_admin"[0];
      assert "team_member"[1] != "ttc_coordinator"[1];
      assert "team_member"[0] != "super_admin"[0];
      assert "team_member"[0] != "mentor"[0];
    case InternalMentor =>
      assert "internal_mentor"[2] != "innovator"[2];
      assert "internal_mentor"[0] != "college_admin"[0];
      assert "internal_mentor"[0] != "ttc_coordinator"[0];
      assert "internal_mentor"[0] != "super_admin"[0];
      assert "internal_mentor"[0] != "mentor"[0];
      assert "internal_mentor"[0] != "team_member"[0];
  }

  lemma RoleNameInjective(a: Role, b: Role)
    requires RoleName(a) == RoleName(b)
    ensures a == b
  {
    RoleNameRoundTrip(a);
    RoleNameRoundTrip(b);
  }

  /**
   * A sidebar entry of `NAV_LINKS` (icons are left out). Its href is the
   * template literal `${path}?role=${ROLES.<role>}`.
   */
  datatype NavLink = NavLink(title: string, path: string, role: Role)
  {
    function Href(): string
    {
      path + "?role=" + RoleName(role)
    }
  }

  /** The entries of `NAV_LINKS`, one list per role, in the record's order. */
  const InnovatorLinks: seq<NavLink> := [
    NavLink("Dashboard", "/dashboard", Innovator),
    NavLink("Submit Idea", "/dashboard/submit", Innovator),
    NavLink("My Ideas", "/dashboard/ideas", Innovator),
    NavLink("Analytics", "/dashboard/analytics", Innovator),
    NavLink("Consultations", "/dashboard/consultations", Innovator),
    NavLink("Psychometric Analysis", "/dashboard/psychometric-analysis", Innovator),
    NavLink("Reports", "/dashboard/reports", Innovator)
  ]

  const PrincipalLinks: seq<NavLink> := [
    NavLink("Dashboard", "/dashboard/principal", Principal),
    NavLink("TTC Management", "/dashboard/principal/ttc-management", Principal),
    NavLink("Mentor Management", "/dashboard/principal/mentors", Principal),
    NavLink("Idea Management", "/dashboard/principal/ideas", Principal),
    NavLink("Plan & Payment", "/dashboard/principal/plan-payment", Principal),
    NavLink("College Analytics", "/dashboard/principal/analytics", Principal),
    NavLink("Credit Requests", "/dashboard/principal/credit-requests", Principal),
    NavLink("Audit Trail", "/dashboard/principal/audit-trail", Principal),
    NavLink("Reports", "/dashboard/reports", Principal)
  ]

  const CoordinatorLinks: seq<NavLink> := [
    NavLink("Dashboard", "/dashboard/coordinator", Coordinator),
    NavLink("Manage Innovators", "/dashboard/coordinator/innovator-management", Coordinator),
    NavLink("Manage Mentors", "/dashboard/coordinator/mentor-management", Coordinator),
    NavLink("Consultations", "/dashboard/coordinator/consultations", Coordinator),
    NavLink("Manage Ideas", "/dashboard/coordinator/manage-ideas", Coordinator),
    NavLink("Analytics", "/dashboard/coordinator/analytics", Coordinator),
    NavLink("Logs & Requests", "/dashboard/coordinator/logs", Coordinator),
    NavLink("Reports", "/dashboard/reports", Coordinator)
  ]

  const MentorLinks: seq<NavLink> := [
    NavLink("Dashboard", "/dashboard/mentor", Mentor),
    NavLink("My Innovators", "/dashboard/mentor/innovators", Mentor),
    NavLink("My Consultations", "/dashboard/mentor/consultations", Mentor),
    NavLink("Psychometric Analysis", "/dashboard/psychometric-analysis", Mentor),
    NavLink("Reports", "/dashboard/reports", Mentor)
  ]

  const TeamMemberLinks: seq<NavLink> := [
    NavLink("Dashboard", "/dashboard/member", TeamMember),
    NavLink("My Ideas", "/dashboard/member/my-ideas", TeamMember),
    NavLink("Invites", "/dashboard/member/invites", TeamMember),
    NavLink("Psychometric Analysis", "/dashboard/psychometric-analysis", TeamMember),
    NavLink("Reports", "/dashboard/reports", TeamMember)
  ]

  const InternalMentorLinks: seq<NavLink> := [
    NavLink("Dashboard", "/dashboard/member", InternalMentor),
    NavLink("My Ideas", "/dashboard/member/my-ideas", InternalMentor),
    NavLink("Invites", "/dashboard/member/invites", InternalMentor),
    NavLink("Psychometric Analysis", "/dashboard/psychometric-analysis", InternalMentor),
    NavLink("Reports", "/dashboard/reports", InternalMentor)
  ]

  const SuperAdminLinks: seq<NavLink> := [
    NavLink("Dashboard", "/dashboard/admin", SuperAdmin),
    NavLink("God's Eye View", "/dashboard/admin/gods-eye-view", SuperAdmin),
    NavLink("Institution Management", "/dashboard/admin/institutions", SuperAdmin),
    NavLink("Plan Configuration", "/dashboard/admin/plans", SuperAdmin),
    NavLink("Idea Oversight", "/dashboard/admin/ideas", SuperAdmin),
    NavLink("Consultation Requests", "/dashboard/admin/consultation-requests", SuperAdmin),
    NavLink("AI Engine Control", "/dashboard/admin/ai-engine", SuperAdmin),
    NavLink("Innovator Insights", "/dashboard/admin/innovator-insights", SuperAdmin),
    NavLink("Advanced Analytics", "/dashboard/admin/analytics", SuperAdmin),
    NavLink("Notifications", "/dashboard/admin/notifications", SuperAdmin),
    NavLink("Security & Logs", "/dashboard/admin/security", SuperAdmin),
    NavLink("Reports", "/dashboard/reports", SuperAdmin)
  ]

  /** The list a role's sidebar shows. */
  function LinksOf(r: Role): seq<NavLink>
  {
    match r
    case Innovator => InnovatorLinks
    case Principal => PrincipalLinks
    case Coordinator => CoordinatorLinks
    case Mentor => MentorLinks
    case TeamMember => TeamMemberLinks
    case InternalMentor => InternalMentorLinks
    case SuperAdmin => SuperAdminLinks
  }

  /** `NAV_LINKS`, keyed by role value as the client's record is. */
  const NavLinks: map<string, seq<NavLink>> := map[
    RoleName(Innovator) := InnovatorLinks,
    RoleName(Principal) := PrincipalLinks,
    RoleName(Coordinator) := CoordinatorLinks,
    RoleName(Mentor) := MentorLinks,
    RoleName(TeamMember) := TeamMemberLinks,
    RoleName(InternalMentor) := InternalMentorLinks,
    RoleName(SuperAdmin) := SuperAdminLinks
  ]

  /** Looking a role's value up in the record gives that role's list. */
  lemma NavLinksLookup(r: Role)
    ensures RoleName(r) in NavLinks && NavLinks[RoleName(r)] == LinksOf(r)
  {
    forall r': Role | r' != r ensures RoleName(r') != RoleName(r) {
      RoleNameRoundTrip(r);
      RoleNameRoundTrip(r');
    }
  }

  /** The record has a list for every role and for nothing else. */
  lemma NavLinksCoverRoles()
    ensures forall r: Role :: RoleName(r) in NavLinks
    ensures forall k :: k in NavLinks ==> ParseRole(k).Some?
  {
    forall r: Role ensures RoleName(r) in NavLinks {
    }
    forall k | k in NavLinks ensures ParseRole(k).Some? {
      var r :| RoleName(r) == k;
      RoleNameRoundTrip(r);
    }
  }

  /** Every entry in a role's list is built with that role's value. */
  lemma LinksOfUseOwnRole(r: Role)
    ensures forall i :: 0 <= i < |LinksOf(r)| ==> LinksOf(r)[i].role == r
  {
    match r
    case Innovator =>
    case Principal =>
    case Coordinator =>
    case Mentor =>
    case TeamMember =>
    case InternalMentor =>
    case SuperAdmin =>
  }

  /** Every role's list is nonempty and ends with its Reports page. */
  lemma LinksOfEndWithReports(r: Role)
    ensures |LinksOf(r)| > 0
    ensures LinksOf(r)[|LinksOf(r)| - 1].title == "Reports"
    ensures LinksOf(r)[|LinksOf(r)| - 1].path == "/dashboard/reports"
  {
    match r
    case Innovator =>
    case Principal =>
    case Coordinator =>
    case Mentor =>
    case TeamMember =>
    case InternalMentor =>
    case SuperAdmin =>
  }

  /** A link's href ends with `?role=` and the link's role. */
  lemma HrefEndsWithRole(l: NavLink)
    ensures EndsWith(l.Href(), "?role=" + RoleName(l.role))
  {
    assert l.Href() == l.path + ("?role=" + RoleName(l.role));
    EndsWithAppend(l.path, "?role=" + RoleName(l.role));
  }

  /** Every href in a role's list ends with `?role=` and that role. */
  lemma NavLinksCarryRole(r: Role)
    ensures RoleName(r) in NavLinks
    ensures forall l :: l in NavLinks[RoleName(r)] ==> EndsWith(l.Href(), "?role=" + RoleName(r))
  {
    NavLinksLookup(r);
    LinksOfUseOwnRole(r);
    forall l | l in LinksOf(r) ensures EndsWith(l.Href(), "?role=" + RoleName(r)) {
      var i :| 0 <= i < |LinksOf(r)| && LinksOf(r)[i] == l;
      HrefEndsWithRole(l);
    }
  }

  /** Every role's list is nonempty and ends with its Reports page. */
  lemma NavLinksEndWithReports(r: Role)
    ensures RoleName(r) in NavLinks && |NavLinks[RoleName(r)]| > 0
    ensures var links := NavLinks[RoleName(r)];
            links[|links| - 1].title == "Reports"
            && links[|links| - 1].Href() == "/dashboard/reports?role=" + RoleName(r)
  {
    NavLinksLookup(r);
    LinksOfEndWithReports(r);
    assert "/dashboard/reports" + "?role=" == "/dashboard/reports?role=";
  }

  /** One default key activity of a phase. */
  datatype Activity = Activity(text: string, timeline: string)

  /** An entry of `ROADMAP_PHASES`. */
  datatype Phase = Phase(name: string, trls: seq<string>, timeline: string, keyActivities: seq<Activity>)

  /** The default key activities of the ideation phase. */
  const IdeationActivities: seq<Activity> := [
    Activity("Conduct market research and competitive analysis (SWOT).", "3-5 Days"),
    Activity("Define your value proposition and business model.", "2-4 Days"),
    Activity("Secure your idea with provisional patents or NDAs.", "5-7 Days")
  ]

  /** The default key activities of the prototyping phase. */
  const PrototypingActivities: seq<Activity> := [
    Activity("Create detailed product designs, mockups, and wireframes.", "7-10 Days"),
    Activity("Build a Proof-of-Concept (POC) or Minimum Viable Product (MVP).", "10-20 Days"),
    Activity("Conduct user testing with a small, targeted group.", "4-7 Days")
  ]

  /** The default key activities of the validation phase. */
  const ValidationActivities: seq<Activity> := [
    Activity("Finalize technical specifications for manufacturing (DFM).", "10-15 Days"),
    Activity("Launch a market test via crowdfunding or a pilot program.", "15-30 Days"),
    Activity("Perform live demonstrations of the product in a real-world setting.", "5-10 Days")
  ]

  /** The default key activities of the launch phase. */
  const LaunchActivities: seq<Activity> := [
    Activity("Establish supplier relationships and finalize production plans.", "20-30 Days"),
    Activity("Develop a comprehensive branding and marketing strategy.", "15-20 Days"),
    Activity("Execute the launch plan and monitor key performance indicators (KPIs).", "10-15 Days")
  ]

  /** The default key activities of the growth phase. */
  const GrowthActivities: seq<Activity> := [
    Activity("Scale production and explore new market segments or product variations.", "Ongoing"),
    Activity("Continuously gather customer feedback for future iterations.", "Ongoing"),
    Activity("Optimize operations and streamline processes to increase efficiency.", "Ongoing")
  ]

  /** `ROADMAP_PHASES`: the five phases in order. */
  const RoadmapPhases: seq<Phase> := [
    Phase("Phase 1: Ideation", ["TRL-1", "TRL-2"], "1-2 Weeks", IdeationActivities),
    Phase("Phase 2: Prototyping", ["TRL-3", "TRL-4"], "3-6 Weeks", PrototypingActivities),
    Phase("Phase 3: Validation", ["TRL-5", "TRL-6", "TRL-7"], "4-8 Weeks", ValidationActivities),
    Phase("Phase 4: Launch", ["TRL-8"], "6-10 Weeks", LaunchActivities),
    Phase("Phase 5: Growth", ["TRL-9"], "Ongoing", GrowthActivities)
  ]

  /** The technology readiness levels, TRL-1 to TRL-9. */
  const TrlLevels: seq<string> :=
    ["TRL-1", "TRL-2", "TRL-3", "TRL-4", "TRL-5", "TRL-6", "TRL-7", "TRL-8", "TRL-9"]

  /** The TRL lists of all phases, in phase order. */
  function AllTrls(phases: seq<Phase>): seq<string>
  {
    if phases == [] then [] else phases[0].trls + AllTrls(phases[1..])
  }

  /** Five phases whose TRL lists, read in order, are exactly TRL-1 to TRL-9. */
  lemma RoadmapPhasesCoverTrls()
    ensures |RoadmapPhases| == 5
    ensures AllTrls(RoadmapPhases) == TrlLevels
  {
    var p := RoadmapPhases;
    assert AllTrls(p[4..]) == p[4].trls by { assert p[4..][1..] == []; }
    assert AllTrls(p[3..]) == p[3].trls + p[4].trls by { assert p[3..][1..] == p[4..]; }
    assert AllTrls(p[2..]) == p[2].trls + p[3].trls + p[4].trls by { assert p[2..][1..] == p[3..]; }
    assert AllTrls(p[1..]) == p[1].trls + p[2].trls + p[3].trls + p[4].trls by { assert p[1..][1..] == p[2..]; }
  }

  /** The nine TRL labels are pairwise distinct. */
  lemma TrlLevelsDistinct(j: nat, k: nat)
    requires j < |TrlLevels| && k < |TrlLevels| && j != k
    ensures TrlLevels[j] != TrlLevels[k]
  {
    assert TrlLevels[j][4] != TrlLevels[k][4];
  }

  /** No TRL belongs to two phases. */
  lemma RoadmapTrlsDisjoint(i: nat, j: nat, t: string)
    requires i < j < |RoadmapPhases|
    requires t in RoadmapPhases[i].trls
    ensures t !in RoadmapPhases[j].trls
  {
    RoadmapPhasesCoverTrls();
  }

  /** Every phase lists exactly three default key activities. */
  lemma RoadmapPhasesHaveThreeActivities()
    ensures forall i :: 0 <= i < |RoadmapPhases| ==> |RoadmapPhases[i].keyActivities| == 3
  {
  }
}
