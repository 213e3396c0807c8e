/** src/pages/Home.tsx: the do-not-disturb commit protocol, the routing of
    the option cards and which status notifications are shown. Navigation
    and alerts are returned as values instead of being performed. */
module Home {
  import opened Common
  import opened Types
  import opened ApiClient
  import opened AppStateContext

  /** The body `toggleDnd(active)` posts, and the data it answers with. */
  datatype DndStatus = DndStatus(active: bool)

  /** `handleDndToggle` in the order it runs: post the negated flag to
      `/room/dnd`, and only when that call returns (whatever its envelope
      says) flip the local flag; a thrown error leaves the flag alone and
      raises the alert. */
  method HandleDndToggle(app: AppStateProvider, reply: ApiOutcome<DndStatus>)
    returns (call: Call<DndStatus>, alerted: bool)
    modifies app
    ensures call == Post("/room/dnd", DndStatus(!old(app.dndActive)))
    ensures reply.Resolved? ==> app.State() == WithDndToggled(old(app.State())) && !alerted
    ensures reply.Rejected? ==> app.State() == old(app.State()) && alerted
    ensures app.dndActive == call.init.body.value.active <==> reply.Resolved?
  {
    call := Post("/room/dnd", DndStatus(!app.dndActive));
    match reply {
      case Resolved(_) =>
        app.ToggleDnd();
        alerted := false;
      case Rejected(_) =>
        alerted := true;
    }
  }

  /** What a click on an option card leads to. */
  datatype HomeAction = Navigate(route: string) | DndToggle

  /** `handleOptionOrAction`: "dnd-toggle" toggles the flag, anything else
      navigates to "/" followed by the option. */
  function OptionAction(option: string): (a: HomeAction)
    ensures a == DndToggle <==> option == "dnd-toggle"
    ensures a.Navigate? ==> a.route == "/" + option && a.route[1..] == option
  {
    if option == "dnd-toggle" then DndToggle else Navigate("/" + option)
  }

  /** The option each card passes, in the order of the grid; the
      "ask-question" card passes "chatbot". */
  const CardOptions: seq<string> := [
    "food-dining", "amenities", "hotel-map", "local-attractions", "clean-room",
    "maintenance", "dnd-toggle", "lost-found", "feedback", "chatbot", "check-out"
  ]

  /** Exactly one card toggles do-not-disturb and every other card navigates
      to its own route. */
  lemma CardRouting()
    ensures forall i :: 0 <= i < |CardOptions| ==> (OptionAction(CardOptions[i]) == DndToggle <==> i == 6)
    ensures forall i, j :: 0 <= i < j < |CardOptions| && i != 6 && j != 6 ==>
              OptionAction(CardOptions[i]) != OptionAction(CardOptions[j])
  {
    forall i, j | 0 <= i < j < |CardOptions| && i != 6 && j != 6
      ensures OptionAction(CardOptions[i]) != OptionAction(CardOptions[j])
    {
      assert OptionAction(CardOptions[i]).route[1..] == CardOptions[i];
    }
  }

  /** The bell shown on the do-not-disturb card. */
  function DndCardIcon(dndActive: bool): string
  {
    if dndActive then "\U{1F514}" else "\U{1F515}"
  }

  /** One `StatusNotification` as the page fills it in. */
  datatype Notification = Notification(
    kind: string,
    title: string,
    time: string,
    actionText: Option<string>,
    onAction: HomeAction)

  /** The title of the maintenance notification: the request's issue line
      (a cleaning request in that slot has none and shows an empty title). */
  function IssueOf(r: ActiveRequest): string
  {
    match r
    case Maintenance(m) => m.issue
    case Cleaning(_) => ""
  }

  /** The notifications shown, top to bottom: cleaning when its slot is
      filled, maintenance when its slot is filled, do-not-disturb when the
      flag is on. */
  function Notifications(s: AppState): seq<Notification>
  {
    (if s.activeRequests.cleaning.Some?
     then [Notification("cleaning", "Room Cleaning in Progress", s.activeRequests.cleaning.value.Requested(),
                        None, Navigate("/clean-room"))]
     else [])
    + (if s.activeRequests.maintenance.Some?
       then [Notification("maintenance", IssueOf(s.activeRequests.maintenance.value),
                          s.activeRequests.maintenance.value.Requested(), None, Navigate("/maintenance"))]
       else [])
    + (if s.dndActive
       then [Notification("dnd", "Do Not Disturb Enabled", "Active", Some("Disable"), DndToggle)]
       else [])
  }

  predicate Shows(s: AppState, kind: string)
  {
    exists i :: 0 <= i < |Notifications(s)| && Notifications(s)[i].kind == kind
  }

  /** Each notification is visible exactly when its condition holds, and at
      most one of each kind is shown. */
  lemma NotificationVisibility(s: AppState)
    ensures Shows(s, "cleaning") <==> s.activeRequests.cleaning.Some?
    ensures Shows(s, "maintenance") <==> s.activeRequests.maintenance.Some?
    ensures Shows(s, "dnd") <==> s.dndActive
    ensures |Notifications(s)| == (if s.activeRequests.cleaning.Some? then 1 else 0)
                                + (if s.activeRequests.maintenance.Some? then 1 else 0)
                                + (if s.dndActive then 1 else 0)
  {
    var n := Notifications(s);
    if s.activeRequests.cleaning.Some? { assert n[0].kind == "cleaning"; }
    if s.activeRequests.maintenance.Some? {
      var k := if s.activeRequests.cleaning.Some? then 1 else 0;
      assert n[k].kind == "maintenance";
    }
    if s.dndActive { assert n[|n| - 1].kind == "dnd"; }
  }

  /** A successful toggle makes the do-not-disturb notification appear or
      disappear and leaves the request notifications as they were. */
  lemma ToggleFlipsDndNotification(s: AppState)
    ensures Shows(WithDndToggled(s), "dnd") <==> !Shows(s, "dnd")
    ensures Shows(WithDndToggled(s), "cleaning") == Shows(s, "cleaning")
    ensures Shows(WithDndToggled(s), "maintenance") == Shows(s, "maintenance")
  {
    NotificationVisibility(s);
    NotificationVisibility(WithDndToggled(s));
  }

  /** The do-not-disturb card shows the ringing bell exactly while the
      do-not-disturb notification is shown, and a successful toggle swaps
      the card's icon. */
  lemma DndIconFollowsFlag(s: AppState)
    ensures DndCardIcon(s.dndActive) == "\U{1F514}" <==> Shows(s, "dnd")
    ensures DndCardIcon(WithDndToggled(s).dndActive) != DndCardIcon(s.dndActive)
  {
    NotificationVisibility(s);
  }
}
