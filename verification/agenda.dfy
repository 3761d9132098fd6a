/** The agenda page: a two-day schedule shown one day at a time, narrowed by
    a category filter. An item whose category is `'All'` (the networking
    lunch) is shown under every filter. */
module Agenda {
  import opened Common
  import opened Seqs

  datatype AgendaItem = AgendaItem(
    time: string,
    title: string,
    kind: string,
    category: string,
    speaker: string,
    description: string)

  /** The filter buttons, in display order. */
  const Filters: seq<string> := ["All", "Main Stage", "Innovation Zone", "Competition", "Pitching"]

  // The schedule items, one constant each.
  const Inauguration: AgendaItem := AgendaItem("09:00 AM", "Inauguration Ceremony", "Main Stage", "Main Stage",
    "Chief Guests & Dignitaries", "Lighting of the lamp and opening address by SMEC Leadership.")
  const KnowledgeBubble: AgendaItem := AgendaItem("10:30 AM", "Knowledge Bubble: Global Innovation Trends",
    "Panel Discussion", "Main Stage", "Industry Leaders & Policymakers",
    "Discussion on national strategies, funding frameworks, and R&D.")
  /** The networking lunch, on both days at the same time. */
  const Lunch: AgendaItem := AgendaItem("01:00 PM", "Networking Lunch", "Break", "All", "", "")
  const IgniteExpo: AgendaItem := AgendaItem("02:00 PM", "Ignite Expo Opening", "Exhibition", "Innovation Zone",
    "Student Innovators", "Showcasing top 20 pre-summit student innovation teams.")
  const Idea2Impact: AgendaItem := AgendaItem("03:30 PM", "Idea2Impact", "Competition", "Competition",
    "Mentors & Teams", "Student teams present solutions to real-world problems.")
  const Masterminds: AgendaItem := AgendaItem("10:00 AM", "Masterminds Congregation", "Pitch", "Competition",
    "School Students (8th-10th)", "Young entrepreneurs pitch ideas to expert mentors.")
  const InnoVestors: AgendaItem := AgendaItem("11:30 AM", "InnoVestors Boot Camp", "Investment Pitch", "Pitching",
    "Startups & Investors", "Seed funding pitches. Potential investment up to 10 Crore INR.")
  const Valedictory: AgendaItem := AgendaItem("02:00 PM", "Valedictory & Awards", "Main Stage", "Main Stage",
    "", "Recognizing the winners of the Pitch Challenge and closing remarks.")

  /** `schedule[day]`. */
  function Schedule(day: DayNumber): seq<AgendaItem> {
    if day == 1 then [Inauguration, KnowledgeBubble, Lunch, IgniteExpo, Idea2Impact]
    else [Masterminds, InnoVestors, Lunch, Valedictory]
  }

  /** The filter test of the page. */
  predicate Shows(filter: string, item: AgendaItem) {
    filter == "All" || item.category == filter || item.category == "All"
  }

  /** `filteredEvents`. */
  function FilteredEvents(day: DayNumber, filter: string): (r: seq<AgendaItem>)
    ensures forall i :: 0 <= i < |r| ==> r[i] in Schedule(day) && (r[i].category == filter || r[i].category == "All" || filter == "All")
    ensures forall i :: 0 <= i < |Schedule(day)| && Shows(filter, Schedule(day)[i]) ==> Schedule(day)[i] in r
    ensures IsSubsequence(r, Schedule(day))
  {
    Filter(Schedule(day), item => Shows(filter, item))
  }

  /** Filter `'All'` shows the whole day. */
  lemma AllFilterShowsWholeDay(day: DayNumber)
    ensures FilteredEvents(day, "All") == Schedule(day)
  {
    FilterKeepsAll(Schedule(day), item => Shows("All", item));
  }

  /** Items of category `'All'` appear under every filter. */
  lemma AllCategoryAlwaysShown(day: DayNumber, filter: string, item: AgendaItem)
    requires item in Schedule(day) && item.category == "All"
    ensures item in FilteredEvents(day, filter)
  {
    var i :| 0 <= i < |Schedule(day)| && Schedule(day)[i] == item;
  }

  /** Applying the filter to its own result changes nothing. */
  lemma FilterTwiceIsOnce(day: DayNumber, filter: string)
    ensures Filter(FilteredEvents(day, filter), item => Shows(filter, item)) == FilteredEvents(day, filter)
  {
    FilterIdempotent(Schedule(day), item => Shows(filter, item));
  }

  /** No day and no filter (among the buttons or otherwise) gives an empty
      list, so the "No events found" message is never shown. */
  lemma NeverEmpty(day: DayNumber, filter: string)
    ensures |FilteredEvents(day, filter)| > 0
  {
    assert Schedule(day)[2] == Lunch;
    assert Shows(filter, Lunch);
  }

  /** Every filter button, on either day, shows at least one item. */
  lemma FilterButtonsNeverEmpty(day: DayNumber)
    ensures forall i :: 0 <= i < |Filters| ==> |FilteredEvents(day, Filters[i])| > 0
  {
    forall i | 0 <= i < |Filters| {
      NeverEmpty(day, Filters[i]);
    }
  }

  datatype AgendaState = AgendaState(activeDay: DayNumber, activeFilter: string)

  const InitialAgenda: AgendaState := AgendaState(1, "All")

  function Visible(s: AgendaState): seq<AgendaItem> {
    FilteredEvents(s.activeDay, s.activeFilter)
  }

  /** The page opens on day 1 under the first filter button, with every item
      of that day. */
  lemma InitialShowsDayOne()
    ensures InitialAgenda.activeFilter == Filters[0]
    ensures Visible(InitialAgenda) == Schedule(1)
  {
    AllFilterShowsWholeDay(1);
  }
}
