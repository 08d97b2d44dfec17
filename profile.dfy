/**
 * The profile page's role gate: a fixed table of tabs with the roles allowed
 * to see each, the role the page filters by, the visible tabs, and which
 * content panel the active tab shows.
 */
module Profile {
  import opened Wrappers
  import TokenCodec

  /** One entry of the tab table (its icon is presentation only). */
  datatype Tab = Tab(key: string, labelKey: string, roles: seq<string>)

  const Tabs: seq<Tab> := [
    Tab("info", "profile.basicInfo", ["student", "teacher", "admin", "head"]),
    Tab("analysis", "profile.generalAnalysis", ["admin", "head"]),
    Tab("myAnalysis", "profile.myAnalysis", ["teacher"]),
    Tab("studentAnalysis", "profile.analysis", ["student"]),
    Tab("subjectAnalysis", "profile.subjectAnalysis", ["admin", "head"]),
    Tab("mySubjectAnalysis", "profile.mySubjectAnalysis", ["teacher"]),
    Tab("subscription", "profile.subscription", ["admin", "head"]),
    Tab("members", "profile.members", ["admin", "head"]),
    Tab("invitations", "profile.invitations", ["admin", "head"])
  ]

  const KnownRoles: set<string> := {"student", "teacher", "admin", "head"}

  /** The table has nine tabs with distinct keys, and every role it names is one of the four. */
  lemma TabTableWellFormed()
    ensures |Tabs| == 9
    ensures forall i, j :: 0 <= i < j < |Tabs| ==> Tabs[i].key != Tabs[j].key
    ensures forall i, r :: 0 <= i < |Tabs| && r in Tabs[i].roles ==> r in KnownRoles
  {
  }

  /**
   * `tabs.filter(tab => tab.roles.includes(role))`: the tabs that admit
   * `role`, no others, none added.
   */
  function FilterByRole(tabs: seq<Tab>, role: string): seq<Tab> {
    if tabs == [] then []
    else if role in tabs[0].roles then [tabs[0]] + FilterByRole(tabs[1..], role)
    else FilterByRole(tabs[1..], role)
  }

  /** The filter keeps exactly the tabs that admit the role, and never grows the table. */
  lemma {:induction false} FilterByRoleMembers(tabs: seq<Tab>, role: string)
    ensures |FilterByRole(tabs, role)| <= |tabs|
    ensures forall t :: t in FilterByRole(tabs, role) <==> t in tabs && role in t.roles
  {
    if tabs != [] {
      FilterByRoleMembers(tabs[1..], role);
      assert tabs == [tabs[0]] + tabs[1..];
    }
  }

  /** Filtering keeps table order: the filter of a concatenation is the concatenation of the filters. */
  lemma {:induction false} FilterByRoleAppend(a: seq<Tab>, b: seq<Tab>, role: string)
    ensures FilterByRole(a + b, role) == FilterByRole(a, role) + FilterByRole(b, role)
  {
    if a != [] {
      assert (a + b)[1..] == a[1..] + b;
      FilterByRoleAppend(a[1..], b, role);
    } else {
      assert a + b == b;
    }
  }

  /** Filtering a second time changes nothing. */
  lemma {:induction false} FilterByRoleIdempotent(tabs: seq<Tab>, role: string)
    ensures FilterByRole(FilterByRole(tabs, role), role) == FilterByRole(tabs, role)
  {
    if tabs != [] {
      FilterByRoleIdempotent(tabs[1..], role);
      if role in tabs[0].roles {
        var rest := FilterByRole(tabs[1..], role);
        assert ([tabs[0]] + rest)[1..] == rest;
      }
    }
  }

  /** A table none of whose tabs admits `role` filters to nothing. */
  lemma {:induction false} FilterByRoleNone(tabs: seq<Tab>, role: string)
    requires forall i :: 0 <= i < |tabs| ==> role !in tabs[i].roles
    ensures FilterByRole(tabs, role) == []
  {
    if tabs != [] {
      FilterByRoleNone(tabs[1..], role);
    }
  }

  function Keys(tabs: seq<Tab>): (ks: seq<string>)
    ensures |ks| == |tabs|
    ensures forall i :: 0 <= i < |tabs| ==> ks[i] == tabs[i].key
  {
    if tabs == [] then [] else [tabs[0].key] + Keys(tabs[1..])
  }

  /** `user?.role ?? 'student'`: the role the tabs are filtered by. */
  function TabRole(user: Option<TokenCodec.User>): (role: string)
    ensures user.None? ==> role == "student"
    ensures user.Some? && user.value.role.Some? ==> role == user.value.role.value
    ensures user.Some? && user.value.role.None? ==> role == "student"
  {
    match user
    case None => "student"
    case Some(u) => u.role.GetOr("student")
  }

  /** `profileResponse?.role ?? role`: the server's role when it sent one, else the token's. */
  function ProfileRole(serverRole: Option<string>, user: Option<TokenCodec.User>): (role: string)
    ensures serverRole.Some? ==> role == serverRole.value
    ensures serverRole.None? ==> role == TabRole(user)
  {
    serverRole.GetOr(TabRole(user))
  }

  /** `filteredTabs`: the visible tabs for the signed-in user. */
  function VisibleTabs(user: Option<TokenCodec.User>): (r: seq<Tab>)
    ensures forall t :: t in r <==> t in Tabs && TabRole(user) in t.roles
  {
    FilterByRoleMembers(Tabs, TabRole(user));
    FilterByRole(Tabs, TabRole(user))
  }

  /** The keys of the table, in order. */
  lemma TabKeys()
    ensures Keys(Tabs) == ["info", "analysis", "myAnalysis", "studentAnalysis", "subjectAnalysis",
                           "mySubjectAnalysis", "subscription", "members", "invitations"]
  {
  }

  /** The tab selected when the page opens. */
  const InitialActiveTab := "info"

  /** The tabs an administrator sees, table order kept. */
  lemma {:induction false} AdminTabs()
    ensures FilterByRole(Tabs, "admin") == [Tabs[0], Tabs[1], Tabs[4], Tabs[6], Tabs[7], Tabs[8]]
    ensures Keys(FilterByRole(Tabs, "admin")) == ["info", "analysis", "subjectAnalysis", "subscription", "members", "invitations"]
  {
    var r := "admin";
    assert FilterByRole(Tabs[8..], r) == [Tabs[8]];
    assert FilterByRole(Tabs[7..], r) == [Tabs[7], Tabs[8]];
    assert FilterByRole(Tabs[6..], r) == [Tabs[6], Tabs[7], Tabs[8]];
    assert FilterByRole(Tabs[5..], r) == [Tabs[6], Tabs[7], Tabs[8]];
    assert FilterByRole(Tabs[4..], r) == [Tabs[4], Tabs[6], Tabs[7], Tabs[8]];
    assert FilterByRole(Tabs[3..], r) == [Tabs[4], Tabs[6], Tabs[7], Tabs[8]];
    assert FilterByRole(Tabs[2..], r) == [Tabs[4], Tabs[6], Tabs[7], Tabs[8]];
    assert FilterByRole(Tabs[1..], r) == [Tabs[1], Tabs[4], Tabs[6], Tabs[7], Tabs[8]];
  }

  /** A head of organisation sees exactly what an administrator sees. */
  lemma {:induction false} HeadTabsEqualAdminTabs()
    ensures FilterByRole(Tabs, "head") == FilterByRole(Tabs, "admin")
  {
    var r := "head";
    assert FilterByRole(Tabs[8..], r) == [Tabs[8]];
    assert FilterByRole(Tabs[7..], r) == [Tabs[7], Tabs[8]];
    assert FilterByRole(Tabs[6..], r) == [Tabs[6], Tabs[7], Tabs[8]];
    assert FilterByRole(Tabs[5..], r) == [Tabs[6], Tabs[7], Tabs[8]];
    assert FilterByRole(Tabs[4..], r) == [Tabs[4], Tabs[6], Tabs[7], Tabs[8]];
    assert FilterByRole(Tabs[3..], r) == [Tabs[4], Tabs[6], Tabs[7], Tabs[8]];
    assert FilterByRole(Tabs[2..], r) == [Tabs[4], Tabs[6], Tabs[7], Tabs[8]];
    assert FilterByRole(Tabs[1..], r) == [Tabs[1], Tabs[4], Tabs[6], Tabs[7], Tabs[8]];
    AdminTabs();
  }

  /** A teacher sees basic info and their own two analyses. */
  lemma {:induction false} TeacherTabs()
    ensures FilterByRole(Tabs, "teacher") == [Tabs[0], Tabs[2], Tabs[5]]
    ensures Keys(FilterByRole(Tabs, "teacher")) == ["info", "myAnalysis", "mySubjectAnalysis"]
  {
    var r := "teacher";
    assert FilterByRole(Tabs[8..], r) == [];
    assert FilterByRole(Tabs[7..], r) == [];
    assert FilterByRole(Tabs[6..], r) == [];
    assert FilterByRole(Tabs[5..], r) == [Tabs[5]];
    assert FilterByRole(Tabs[4..], r) == [Tabs[5]];
    assert FilterByRole(Tabs[3..], r) == [Tabs[5]];
    assert FilterByRole(Tabs[2..], r) == [Tabs[2], Tabs[5]];
    assert FilterByRole(Tabs[1..], r) == [Tabs[2], Tabs[5]];
  }

  /** A student sees basic info and their own analysis. */
  lemma {:induction false} StudentTabs()
    ensures FilterByRole(Tabs, "student") == [Tabs[0], Tabs[3]]
    ensures Keys(FilterByRole(Tabs, "student")) == ["info", "studentAnalysis"]
  {
    var r := "student";
    assert FilterByRole(Tabs[8..], r) == [];
    assert FilterByRole(Tabs[7..], r) == [];
    assert FilterByRole(Tabs[6..], r) == [];
    assert FilterByRole(Tabs[5..], r) == [];
    assert FilterByRole(Tabs[4..], r) == [];
    assert FilterByRole(Tabs[3..], r) == [Tabs[3]];
    assert FilterByRole(Tabs[2..], r) == [Tabs[3]];
    assert FilterByRole(Tabs[1..], r) == [Tabs[3]];
  }

  /** A role outside the four sees no tab at all; there is no fallback to `student`. */
  lemma UnknownRoleSeesNothing(role: string)
    requires role !in KnownRoles
    ensures FilterByRole(Tabs, role) == []
  {
    FilterByRoleNone(Tabs, role);
  }

  /** The initial tab is visible, and first, for every known role. */
  lemma InitialTabVisible(role: string)
    requires role in KnownRoles
    ensures |FilterByRole(Tabs, role)| > 0 && FilterByRole(Tabs, role)[0].key == InitialActiveTab
  {
    AdminTabs();
    HeadTabsEqualAdminTabs();
    TeacherTabs();
    StudentTabs();
  }

  /** Subscription, members and invitations are never shown to students or teachers. */
  lemma ManagementTabsHidden(role: string, t: Tab)
    requires role == "student" || role == "teacher"
    requires t in FilterByRole(Tabs, role)
    ensures t.key !in {"subscription", "members", "invitations"}
  {
    StudentTabs();
    TeacherTabs();
  }

  /** The content panels, each told the profile role where the source passes it. */
  datatype Panel =
    | BasicInfoPanel(role: string)
    | GeneralAnalysisPanel(role: string)
    | SubjectAnalysisPanel(role: string)
    | SubscriptionPanel
    | MembersPanel
    | InvitationsPanel

  /**
   * The panels rendered for `activeTab`, in page order. The basic-info panel
   * waits for the profile request to load without error.
   */
  function Panels(activeTab: string, profileRole: string, profileLoading: bool, profileError: bool): (r: seq<Panel>)
    ensures |r| <= 1
    ensures forall p :: p in r && (p.BasicInfoPanel? || p.GeneralAnalysisPanel? || p.SubjectAnalysisPanel?) ==>
      p.role == profileRole
  {
    (if activeTab == "info" && !profileLoading && !profileError then [BasicInfoPanel(profileRole)] else [])
    + (if activeTab in {"analysis", "myAnalysis", "studentAnalysis"} then [GeneralAnalysisPanel(profileRole)] else [])
    + (if activeTab in {"subjectAnalysis", "mySubjectAnalysis"} then [SubjectAnalysisPanel(profileRole)] else [])
    + (if activeTab == "subscription" then [SubscriptionPanel] else [])
    + (if activeTab == "members" then [MembersPanel] else [])
    + (if activeTab == "invitations" then [InvitationsPanel] else [])
  }

  /** Once the profile has loaded, every tab of the table shows exactly one panel; any other key shows none. */
  lemma OnePanelPerTab(activeTab: string, profileRole: string)
    ensures activeTab in Keys(Tabs) ==> |Panels(activeTab, profileRole, false, false)| == 1
    ensures activeTab !in Keys(Tabs) ==> Panels(activeTab, profileRole, false, false) == []
  {
    TabKeys();
    var r := Panels(activeTab, profileRole, false, false);
    if activeTab == "info" {
      assert r == [BasicInfoPanel(profileRole)];
    } else if activeTab in {"analysis", "myAnalysis", "studentAnalysis"} {
      assert r == [GeneralAnalysisPanel(profileRole)];
    } else if activeTab in {"subjectAnalysis", "mySubjectAnalysis"} {
      assert r == [SubjectAnalysisPanel(profileRole)];
    } else if activeTab == "subscription" {
      assert r == [SubscriptionPanel];
    } else if activeTab == "members" {
      assert r == [MembersPanel];
    } else if activeTab == "invitations" {
      assert r == [InvitationsPanel];
    } else {
      assert r == [];
    }
  }

  /** The three analysis tabs share the general-analysis panel, which is told the profile role. */
  lemma AnalysisTabsSharePanel(activeTab: string, profileRole: string, loading: bool, error: bool)
    requires activeTab in {"analysis", "myAnalysis", "studentAnalysis"}
    ensures Panels(activeTab, profileRole, loading, error) == [GeneralAnalysisPanel(profileRole)]
  {
  }
}
