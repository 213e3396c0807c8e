/** The value shapes declared in src/types/index.ts, plus the way a promise
    settles (resolved with a value, or rejected by a throw). */
module Types {
  import opened Common

  /** A settled promise. `Rejected(Some(m))` is a thrown `Error` whose message
      is `m`; `Rejected(None)` is a thrown value that is not an `Error`. */
  datatype Settled<+T> = Resolved(value: T) | Rejected(err: Option<string>)

  /** The envelope every backend endpoint answers with. An absent `data` also
      stands for a falsy one (`null`). */
  datatype ApiResponse<+T> = ApiResponse(
    success: bool,
    message: Option<string>,
    data: Option<T>,
    error: Option<string>)

  /** What a call through the API client settles to. */
  type ApiOutcome<T> = Settled<ApiResponse<T>>

  /** The envelope arrived, reports success and carries data. */
  predicate SucceededWithData<T>(reply: ApiOutcome<T>)
  {
    reply.Resolved? && reply.value.success && reply.value.data.Some?
  }

  datatype User = User(
    id: string,
    name: string,
    email: string,
    roomNumber: Option<string>,
    checkInDate: Option<string>,
    checkOutDate: Option<string>)

  datatype AuthState = AuthState(
    user: Option<User>,
    isLoggedIn: bool,
    isCheckedIn: bool,
    loading: bool,
    error: Option<string>)

  datatype CleaningRequest = CleaningRequest(
    id: string,
    status: string,
    requested: string,
    cleaningType: string,
    eta: Option<string>)

  datatype Priority = Low | Medium | High

  datatype MaintenanceRequest = MaintenanceRequest(
    id: string,
    status: string,
    requested: string,
    issue: string,
    priority: Priority,
    eta: Option<string>)

  /** `addActiveRequest` accepts either kind of request for either slot. */
  datatype ActiveRequest = Cleaning(cleaning: CleaningRequest) | Maintenance(maintenance: MaintenanceRequest)
  {
    function Requested(): string
    {
      match this
      case Cleaning(c) => c.requested
      case Maintenance(m) => m.requested
    }
  }

  /** The two slot names, `'cleaning' | 'maintenance'`. */
  datatype RequestKind = CleaningSlot | MaintenanceSlot

  /** One slot per kind: a second request of a kind replaces the first. */
  datatype ActiveRequests = ActiveRequests(cleaning: Option<ActiveRequest>, maintenance: Option<ActiveRequest>)

  datatype AppState = AppState(
    currentLanguage: string,
    dndActive: bool,
    activeRequests: ActiveRequests)

  datatype MenuItem = MenuItem(
    id: string,
    name: string,
    description: string,
    price: real,
    category: string,
    image: Option<string>,
    dietaryInfo: Option<seq<string>>)

  datatype MenuCategory = MenuCategory(availableTime: string, items: seq<MenuItem>)

  /** One own property of a `Menu` object; a menu lists them in key order. */
  datatype MenuSection = MenuSection(key: string, category: MenuCategory)

  type Menu = seq<MenuSection>
}
