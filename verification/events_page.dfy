/** The events page: a timeline of sixteen sessions over the two days,
    showing one day at a time with each item numbered `01`, `02`, ... .
    Switching day first plays an exit animation; the day changes when that
    animation completes. */
module EventsPage {
  import opened Common
  import opened Text
  import opened Seqs

  datatype TimelineEvent = TimelineEvent(title: string, description: string, time: string, kind: string, day: DayNumber)

  // The sessions, one constant each, in the order of the page's list.
  const D1Inauguration: TimelineEvent := TimelineEvent("Inauguration, Opening Remarks & Key Note Sessions",
    "By GIC Chair & Chief Guests", "10:00 - 11:30", "Ceremony", 1)
  const D1TeaBreak: TimelineEvent := TimelineEvent("Tea Break & Expo Walk",
    "Networking and Exhibition visit", "11:30 - 12:00", "Break", 1)
  const D1PanelInnovation: TimelineEvent := TimelineEvent("Panel Discussion: Entrepreneurship & India mission on Innovation",
    "Panel Members discussion", "12:00 - 13:00", "Panel", 1)
  const D1PanelPolicy: TimelineEvent := TimelineEvent("Panel Discussion: Policy Enablement & Vision 2047",
    "Strategic discussion on India's future", "13:00 - 14:00", "Panel", 1)
  const D1Lunch: TimelineEvent := TimelineEvent("Lunch Break & Exhibition Walk",
    "Networking lunch", "14:00 - 15:00", "Break", 1)
  const D1PanelEntrepreneurship: TimelineEvent := TimelineEvent("Panel Discussion: Entrepreneurship",
    "Deep dive into entrepreneurial ecosystem", "15:00 - 16:00", "Panel", 1)
  const D1PanelDataCenters: TimelineEvent := TimelineEvent("Panel Discussion: Data Centers & Infrastructure for Deep Technologies",
    "Infrastructure challenges and opportunities", "16:00 - 17:00", "Panel", 1)
  const D1Coffee: TimelineEvent := TimelineEvent("Coffee Break & Networking",
    "Evening networking session", "17:00 - 17:30", "Break", 1)
  const D2Opening: TimelineEvent := TimelineEvent("Opening Remarks & Key Note Sessions",
    "Chief Guests & Guest of Honors", "10:30 - 11:30", "Talk", 2)
  const D2TeaBreak: TimelineEvent := TimelineEvent("Tea Break & Expo Walk",
    "Networking break", "11:30 - 12:00", "Break", 2)
  const D2PanelSpace: TimelineEvent := TimelineEvent("Panel Discussion: Space & Defence Technologies",
    "Frontier technology discussion", "12:00 - 13:00", "Panel", 2)
  const D2PanelSemiconductors: TimelineEvent := TimelineEvent("Panel Discussion: Semi Conductors & Advanced Electronics",
    "Future of electronics", "13:00 - 14:00", "Panel", 2)
  const D2Lunch: TimelineEvent := TimelineEvent("Lunch Break & Exhibition Walk",
    "Networking lunch", "14:00 - 15:00", "Break", 2)
  const D2PanelMaterials: TimelineEvent := TimelineEvent("Panel Discussion: Advanced Materials & Nano Technologies",
    "Material science innovations", "15:00 - 16:00", "Panel", 2)
  const D2PanelBiotech: TimelineEvent := TimelineEvent("Panel Discussion: Biotechnology & Life Sciences",
    "Innovations in life sciences", "16:00 - 17:00", "Panel", 2)
  const D2Coffee: TimelineEvent := TimelineEvent("Coffee Break & Networking",
    "Closing networking session", "17:00 - 17:30", "Break", 2)

  const FirstEight: seq<TimelineEvent> := [
    D1Inauguration, D1TeaBreak, D1PanelInnovation, D1PanelPolicy,
    D1Lunch, D1PanelEntrepreneurship, D1PanelDataCenters, D1Coffee]

  const LastEight: seq<TimelineEvent> := [
    D2Opening, D2TeaBreak, D2PanelSpace, D2PanelSemiconductors,
    D2Lunch, D2PanelMaterials, D2PanelBiotech, D2Coffee]

  /** `events`: the sixteen sessions in list order. */
  const Events: seq<TimelineEvent> := FirstEight + LastEight

  /** The filter test of the page, `e => e.day === day`. */
  function OnDay(day: DayNumber): TimelineEvent -> bool {
    (e: TimelineEvent) => e.day == day
  }

  /** `filteredEvents` for a day. */
  function EventsOn(day: DayNumber): (r: seq<TimelineEvent>)
    ensures forall i :: 0 <= i < |r| ==> r[i].day == day && r[i] in Events
    ensures forall i :: 0 <= i < |Events| && Events[i].day == day ==> Events[i] in r
    ensures IsSubsequence(r, Events)
  {
    Filter(Events, OnDay(day))
  }

  lemma FirstEightOnDayOne()
    ensures forall i :: 0 <= i < |FirstEight| ==> FirstEight[i].day == 1
  {
  }

  lemma LastEightOnDayTwo()
    ensures forall i :: 0 <= i < |LastEight| ==> LastEight[i].day == 2
  {
  }

  /** Day 1 shows the first eight sessions. */
  lemma DayOneIsFirstEight()
    ensures EventsOn(1) == FirstEight && |EventsOn(1)| == 8
  {
    FirstEightOnDayOne();
    LastEightOnDayTwo();
    FilterAppend(FirstEight, LastEight, OnDay(1));
    FilterKeepsAll(FirstEight, OnDay(1));
    FilterKeepsNone(LastEight, OnDay(1));
  }

  /** Day 2 shows the last eight sessions. */
  lemma DayTwoIsLastEight()
    ensures EventsOn(2) == LastEight && |EventsOn(2)| == 8
  {
    FirstEightOnDayOne();
    LastEightOnDayTwo();
    FilterAppend(FirstEight, LastEight, OnDay(2));
    FilterKeepsNone(FirstEight, OnDay(2));
    FilterKeepsAll(LastEight, OnDay(2));
  }

  /** The two day views split the list: each session is on exactly one. */
  lemma DaysPartitionEvents()
    ensures multiset(EventsOn(1)) + multiset(EventsOn(2)) == multiset(Events)
    ensures |EventsOn(1)| + |EventsOn(2)| == |Events|
  {
    FilterPartition(Events, OnDay(1), OnDay(2));
  }

  // ---------------------------------------------------------------------
  // Day switching

  /** The active day, and the days whose exit animation is still running, in
      the order they were requested. */
  datatype PageState = PageState(activeDay: DayNumber, pendingSwitches: seq<DayNumber>)

  const InitialPage: PageState := PageState(1, [])

  /** `handleDaySwitch`: a click on the active day does nothing; any other
      starts an exit animation that will switch to that day. */
  function HandleDaySwitch(s: PageState, day: DayNumber): (r: PageState)
    ensures day == s.activeDay ==> r == s
    ensures day != s.activeDay ==> r.activeDay == s.activeDay && r.pendingSwitches == s.pendingSwitches + [day]
  {
    if day == s.activeDay then s else s.(pendingSwitches := s.pendingSwitches + [day])
  }

  /** The oldest running exit animation completes and sets its day. */
  function ExitAnimationCompletes(s: PageState): (r: PageState)
    ensures s.pendingSwitches == [] ==> r == s
    ensures s.pendingSwitches != [] ==> r.activeDay == s.pendingSwitches[0] && r.pendingSwitches == s.pendingSwitches[1..]
  {
    if s.pendingSwitches == [] then s
    else PageState(s.pendingSwitches[0], s.pendingSwitches[1..])
  }

  /** With no animation running, a click on the other day shows that day
      once its exit animation completes. */
  lemma SwitchTakesEffectOnCompletion(s: PageState, day: DayNumber)
    requires s.pendingSwitches == [] && day != s.activeDay
    ensures HandleDaySwitch(s, day).activeDay == s.activeDay
    ensures ExitAnimationCompletes(HandleDaySwitch(s, day)) == PageState(day, [])
  {
  }

  function Visible(s: PageState): seq<TimelineEvent> {
    EventsOn(s.activeDay)
  }

  /** The page opens on day 1 showing the first eight sessions; a click on
      day 2 shows the last eight once its exit animation completes. */
  lemma InitialShowsDayOne()
    ensures Visible(InitialPage) == FirstEight
    ensures Visible(ExitAnimationCompletes(HandleDaySwitch(InitialPage, 2))) == LastEight
  {
    DayOneIsFirstEight();
    DayTwoIsLastEight();
  }

  // ---------------------------------------------------------------------
  // Item numbers

  /** The number shown on the item at `index`: `String(index + 1).padStart(2, '0')`. */
  function ItemNumber(index: nat): (r: string)
    ensures IsDigits(r) && ParseDecimal(r) == index + 1
    ensures index < 99 <==> |r| == 2
    ensures r[0] == '0' <==> index < 9
  {
    var digits := ToDecimal(index + 1);
    ParseToDecimal(index + 1);
    ParsePadStart(digits, 2);
    PadStart(digits, 2, '0')
  }

  /** Distinct positions get distinct numbers. */
  lemma ItemNumbersDistinct(i: nat, j: nat)
    requires i != j
    ensures ItemNumber(i) != ItemNumber(j)
  {
  }
}
