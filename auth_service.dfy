/** src/api/authService.ts: the login call persists the token it receives,
    logout removes it. The client's outcome is an input. */
module AuthService {
  import opened Common
  import opened Types
  import opened BrowserStorage
  import opened ApiClient

  /** `LoginResponse`: `data` of a login envelope. `checkedIn` may be missing
      from the JSON, and so may the token. */
  datatype LoginResponse = LoginResponse(user: User, token: Option<string>, checkedIn: Option<bool>)

  datatype LoginBody = LoginBody(code: string)

  datatype CheckInData = CheckInData(
    phone: string,
    idType: string,
    idNumber: string,
    arrivalTime: string,
    specialRequests: Option<string>)

  /** `response.success && response.data?.token`: the envelope succeeded and
      carries a non-empty token. */
  predicate CarriesToken(reply: ApiOutcome<LoginResponse>)
  {
    SucceededWithData(reply) && HasToken(reply.value.data.value.token)
  }

  /** `loginUser`: POST `{code}` to `/auth/login`; store the token when the
      envelope carries one; hand the outcome back unchanged, a rejection
      included (storage is then left as it was). */
  method LoginUser(storage: LocalStorage, reservationCode: string, reply: ApiOutcome<LoginResponse>)
    returns (call: Call<LoginBody>, result: ApiOutcome<LoginResponse>)
    modifies storage
    ensures call == Call("/auth/login", RequestInit(Some(POST), Some(LoginBody(reservationCode)), map[]))
    ensures result == reply
    ensures CarriesToken(reply) ==>
              storage.entries == old(storage.entries)[AuthTokenKey := reply.value.data.value.token.value]
    ensures !CarriesToken(reply) ==> storage.entries == old(storage.entries)
  {
    call := Post("/auth/login", LoginBody(reservationCode));
    if reply.Resolved? && reply.value.success && reply.value.data.Some? {
      var token := reply.value.data.value.token;
      if token.Some? && token.value != "" {
        storage.SetItem(AuthTokenKey, token.value);
      }
    }
    result := reply;
  }

  /** `checkInUser`: POST the form to `/checkin`; the outcome is passed on. */
  function CheckInCall(formData: CheckInData): (call: Call<CheckInData>)
    ensures call.endpoint == "/checkin" && call.init.verb == Some(POST) && call.init.body == Some(formData)
  {
    Post("/checkin", formData)
  }

  /** `logoutUser`: remove the `authToken` entry and no other. */
  method LogoutUser(storage: LocalStorage)
    modifies storage
    ensures AuthTokenKey !in storage.entries
    ensures forall k :: k != AuthTokenKey ==> storage.GetItem(k) == old(storage.GetItem(k))
  {
    storage.RemoveItem(AuthTokenKey);
  }
}
