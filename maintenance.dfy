/** src/pages/Maintenance.tsx: the report form, the short issue line kept in
    the maintenance slot, and the submit handler's writes to the page and to
    the shared preference store. The request goes through
    `requestMaintenance` (src/api/cleanMaintenanceServiceApi.ts), a plain
    `post` to `/room/maintenance` whose settled reply is an input here. */
module Maintenance {
  import opened Common
  import opened Types
  import opened ApiClient
  import opened AppStateContext

  const IssueLength: nat := 30
  const Ellipsis: string := "..."

  /** `description.substring(0, 30) + (description.length > 30 ? '...' : '')` */
  function TruncateIssue(description: string): string
  {
    (if |description| > IssueLength then description[..IssueLength] else description)
    + (if |description| > IssueLength then Ellipsis else "")
  }

  /** The issue line is at most 33 characters; a description of up to 30 is
      kept whole, a longer one keeps its first 30 and gains "...". (Only a
      longer one that already is 30 characters and "..." comes out equal.) */
  lemma TruncateIssueShape(description: string)
    ensures |TruncateIssue(description)| <= IssueLength + |Ellipsis|
    ensures |description| <= IssueLength ==> TruncateIssue(description) == description
    ensures TruncateIssue(description) == description <==>
              |description| <= IssueLength
              || (|description| == IssueLength + |Ellipsis| && description[IssueLength..] == Ellipsis)
    ensures |description| > IssueLength ==>
              TruncateIssue(description)[..IssueLength] == description[..IssueLength]
              && TruncateIssue(description)[IssueLength..] == Ellipsis
  {
  }

  /** Shortening a shortened issue changes nothing. */
  lemma TruncateIssueIdempotent(description: string)
    ensures TruncateIssue(TruncateIssue(description)) == TruncateIssue(description)
  {
    if |description| > IssueLength {
      var issue := TruncateIssue(description);
      assert issue[..IssueLength] == description[..IssueLength];
    }
  }

  datatype MaintenanceFormData = MaintenanceFormData(
    category: string,
    description: string,
    priority: Priority,
    notPresent: bool,
    contactMethod: string)

  /** The form as the page opens it. */
  function InitialForm(): (f: MaintenanceFormData)
    ensures f.priority == Medium && !f.notPresent && f.contactMethod == "app"
    ensures f.category == "" && f.description == ""
  {
    MaintenanceFormData("", "", Medium, false, "app")
  }

  /** The maintenance request stored for a successful reply: id, status and
      eta from the server, the issue line and priority from the form. */
  function StoredRequest(data: MaintenanceRequest, form: MaintenanceFormData, requestedAt: string): ActiveRequest
  {
    Maintenance(MaintenanceRequest(data.id, data.status, requestedAt, TruncateIssue(form.description), form.priority, data.eta))
  }

  /** The page's state. */
  class MaintenancePage {
    var formData: MaintenanceFormData
    var loading: bool
    var error: Option<string>

    constructor ()
      ensures formData == InitialForm() && !loading && error.None?
    {
      formData := InitialForm();
      loading := false;
      error := None;
    }

    /** `handlePriorityChange`: only the priority changes. */
    method HandlePriorityChange(priority: Priority)
      modifies this`formData
      ensures formData == old(formData).(priority := priority)
    {
      formData := formData.(priority := priority);
    }

    /** `handleSubmit`, given the time label `requestedAt` and what
        `requestMaintenance` settled to. The form is posted as it is; the
        maintenance slot is written only for a successful reply with data;
        otherwise the error is the envelope's message, the thrown message or
        the generic text; loading ends on every path. */
    method HandleSubmit(app: AppStateProvider, reply: ApiOutcome<MaintenanceRequest>, requestedAt: string)
      returns (call: Call<MaintenanceFormData>)
      modifies this`loading, this`error, app
      ensures call == Post("/room/maintenance", old(formData))
      ensures formData == old(formData) && !loading
      ensures SucceededWithData(reply) ==>
                app.State() == WithSlot(old(app.State()), MaintenanceSlot,
                                        Some(StoredRequest(reply.value.data.value, formData, requestedAt)))
                && error.None?
      ensures !SucceededWithData(reply) ==> app.State() == old(app.State())
      ensures reply.Resolved? && !SucceededWithData(reply) ==>
                error == Some(OrElse(reply.value.message, CommonErrorText))
      ensures reply.Rejected? ==> error == Some(MessageOr(reply.err, CommonErrorText))
    {
      loading := true;
      error := None;
      call := Post("/room/maintenance", formData);
      match reply {
        case Resolved(response) =>
          if response.success && response.data.Some? {
            app.AddActiveRequest(MaintenanceSlot, StoredRequest(response.data.value, formData, requestedAt));
          } else {
            error := Some(OrElse(response.message, CommonErrorText));
          }
        case Rejected(e) =>
          error := Some(MessageOr(e, CommonErrorText));
      }
      loading := false;
    }
  }
}
