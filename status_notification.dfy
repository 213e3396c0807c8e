/** src/components/home/StatusNotification.tsx: the icon for a notification
    type, the time line and the default action text. */
module StatusNotification {
  import opened Common

  const CleaningIcon: string := "\U{1F9F9}"
  const MaintenanceIcon: string := "\U{1F527}"
  const FoodIcon: string := "\U{1F37D}\U{FE0F}"
  const DndIcon: string := "\U{1F515}"
  const OtherIcon: string := "\U{1F4CC}"

  /** `getIcon`: one icon per known type, a pin for anything else. */
  function GetIcon(kind: string): string
  {
    if kind == "cleaning" then CleaningIcon
    else if kind == "maintenance" then MaintenanceIcon
    else if kind == "food" then FoodIcon
    else if kind == "dnd" then DndIcon
    else OtherIcon
  }

  /** The four known types have four different icons, and none of them is
      the pin shown for an unknown type. */
  lemma IconsTellTypesApart(a: string, b: string)
    requires a in {"cleaning", "maintenance", "food", "dnd"}
    ensures GetIcon(a) != OtherIcon
    ensures GetIcon(a) == GetIcon(b) <==> a == b
  {
  }

  const RequestedWord: string := "Requested"
  const RequestedAt: string := "Requested at "

  /** `time.includes('Requested') ? time : 'Requested at ' + time` */
  function TimeLabel(time: string): string
  {
    if Contains(time, RequestedWord) then time else RequestedAt + time
  }

  /** A time that already says "Requested" is shown as it is; any other gets
      the prefix. Every label says "Requested", so labelling is idempotent. */
  lemma TimeLabelLaws(time: string)
    ensures Contains(time, RequestedWord) ==> TimeLabel(time) == time
    ensures !Contains(time, RequestedWord) ==> TimeLabel(time) == RequestedAt + time
    ensures Contains(TimeLabel(time), RequestedWord)
    ensures TimeLabel(TimeLabel(time)) == TimeLabel(time)
  {
    if !Contains(time, RequestedWord) {
      var shown := RequestedAt + time;
      assert shown[..|RequestedWord|] == RequestedWord;
      ContainsPrefix(shown, RequestedWord);
    }
  }

  /** The page's dnd notification says "Active", which becomes
      "Requested at Active". */
  lemma DndTimeLabel()
    ensures TimeLabel("Active") == "Requested at Active"
  {
    assert !Contains("Active", RequestedWord);
  }

  /** `actionText = 'View'`: the default applies only when the prop is
      absent; an empty text given by the caller is kept. */
  function ActionText(actionText: Option<string>): (text: string)
    ensures actionText.None? <==> (text == "View" && actionText != Some("View"))
    ensures actionText.Some? ==> text == actionText.value
  {
    if actionText.Some? then actionText.value else "View"
  }
}
