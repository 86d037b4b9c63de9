/** The about page (About.js): three tabs of which one is selected, and an
    accordion over the team members in which at most one biography is open. */
module About {

  datatype Option<T> = None | Some(value: T)

  datatype TabEntry = TabEntry(title: string, content: string)

  /** The tab keys in the order the tab buttons are rendered. */
  const TabKeys: seq<string> := ["mission", "values", "impact"]

  /** The content behind each tab; the icons are presentation and are left out. */
  const TabContent: map<string, TabEntry> := map[
    "mission" := TabEntry("Our Mission",
      "At Suwanee Health Hub, our mission is to empower individuals to take control of their health and well-being through education, support, and community engagement."),
    "values" := TabEntry("Our Values",
      "We believe in integrity, compassion, and innovation. Our team is committed to providing the highest quality of care and guidance to our community."),
    "impact" := TabEntry("Our Impact",
      "Since our founding, we've helped thousands of individuals achieve their health goals, fostering a healthier and happier Suwanee community.")
  ]

  datatype Member = Member(name: string, role: string, bio: string)

  const TeamMembers: seq<Member> := [
    Member("Dr. Sarah Johnson", "Nutritionist",
      "Dr. Johnson has over 15 years of experience in nutrition and dietary planning."),
    Member("Mike Thompson", "Fitness Instructor",
      "Mike is a certified personal trainer with a passion for helping clients achieve their fitness goals."),
    Member("Emily Chen", "Mental Health Counselor",
      "Emily specializes in stress management and mindfulness techniques."),
    Member("David Rodriguez", "Wellness Coach",
      "David takes a holistic approach to health, focusing on both physical and mental well-being.")
  ]

  /** Every tab button has content and all content has a button; the keys
      are distinct. */
  lemma TabKeysMatchContent()
    ensures forall k :: k in TabKeys <==> k in TabContent
    ensures forall i, j :: 0 <= i < j < |TabKeys| ==> TabKeys[i] != TabKeys[j]
  {
  }

  datatype TabButton = TabButton(key: string, title: string, active: bool)

  /** The tab buttons as rendered: one per key, in key order, labelled with
      the tab's title, highlighted exactly when it is the selected tab, so
      that at most one is highlighted. */
  function TabButtons(selected: string): (buttons: seq<TabButton>)
    ensures |buttons| == |TabKeys|
    ensures forall i :: 0 <= i < |buttons| ==>
      buttons[i].key == TabKeys[i] && buttons[i].title == TabContent[TabKeys[i]].title
    ensures forall i :: 0 <= i < |buttons| ==> (buttons[i].active <==> TabKeys[i] == selected)
    ensures forall i, j :: 0 <= i < |buttons| && 0 <= j < |buttons| && buttons[i].active && buttons[j].active ==> i == j
  {
    seq(|TabKeys|, i requires 0 <= i < |TabKeys| =>
      TabButton(TabKeys[i], TabContent[TabKeys[i]].title, TabKeys[i] == selected))
  }

  /** The accordion after a click on member `index`: clicking the open member
      closes it, clicking any other member opens that one alone. */
  function NextExpanded(current: Option<int>, index: int): (next: Option<int>)
    ensures next == None <==> current == Some(index)
    ensures next.Some? ==> next.value == index
  {
    if current == Some(index) then None else Some(index)
  }

  /** The biographies rendered for `members`, whose first element has position
      `offset` in the team: a member's bio appears when it is the expanded one.
      At most one appears, and one appears exactly when the expanded position
      falls among these members. */
  function RenderedBios(members: seq<Member>, expanded: Option<int>, offset: int): (bios: seq<string>)
    decreases |members|
    ensures |bios| <= 1
    ensures bios != [] <==> expanded.Some? && offset <= expanded.value < offset + |members|
    ensures bios != [] ==> bios[0] == members[expanded.value - offset].bio
  {
    if members == [] then []
    else (if expanded == Some(offset) then [members[0].bio] else []) + RenderedBios(members[1..], expanded, offset + 1)
  }

  class AboutPage {
    var selectedTab: string
    /** The index of the member whose bio is open, or None (`null`). */
    var expandedMember: Option<int>

    /** The selected tab is a key of the tab content, and the expanded member,
        if any, is a position of the team list. */
    ghost predicate Valid()
      reads this
    {
      selectedTab in TabKeys
      && (expandedMember.Some? ==> 0 <= expandedMember.value < |TeamMembers|)
    }

    /** The page opens on the mission tab with every bio closed. */
    constructor ()
      ensures Valid()
      ensures selectedTab == "mission" && expandedMember == None
    {
      selectedTab := "mission";
      expandedMember := None;
    }

    /** A click on a tab button selects that tab; the accordion is untouched. */
    method SelectTab(tab: string)
      requires Valid()
      requires tab in TabKeys
      modifies this
      ensures Valid()
      ensures selectedTab == tab && expandedMember == old(expandedMember)
    {
      selectedTab := tab;
    }

    /** A click on member `index` toggles the accordion; the tab is untouched. */
    method ToggleMember(index: int)
      requires Valid()
      requires 0 <= index < |TeamMembers|
      modifies this
      ensures Valid()
      ensures expandedMember == NextExpanded(old(expandedMember), index)
      ensures selectedTab == old(selectedTab)
    {
      expandedMember := NextExpanded(expandedMember, index);
    }

    /** The tab whose title and content are shown: its title is the label
        of the highlighted tab button. */
    function ShownTab(): (entry: TabEntry)
      reads this
      requires Valid()
      ensures exists i ::
        0 <= i < |TabKeys| && TabButtons(selectedTab)[i].active && TabButtons(selectedTab)[i].title == entry.title
    {
      var buttons := TabButtons(selectedTab);
      assert exists i :: 0 <= i < |TabKeys| && TabKeys[i] == selectedTab && buttons[i].active;
      TabContent[selectedTab]
    }

    /** The open biographies: none when the accordion is closed, otherwise
        exactly the bio of the expanded member. */
    function VisibleBios(): (bios: seq<string>)
      reads this
      requires Valid()
      ensures |bios| <= 1
      ensures bios != [] <==> expandedMember.Some?
      ensures expandedMember.Some? ==> bios == [TeamMembers[expandedMember.value].bio]
    {
      RenderedBios(TeamMembers, expandedMember, 0)
    }
  }
}
