/** src/context/AppStateContext.tsx: the preference store. One record
    (language, do-not-disturb flag, one slot per request kind) replaced by
    four named operations. */
module AppStateContext {
  import opened Common
  import opened Types

  function InitialAppState(): AppState
  {
    AppState("en", false, ActiveRequests(None, None))
  }

  function Slot(s: AppState, kind: RequestKind): Option<ActiveRequest>
  {
    match kind
    case CleaningSlot => s.activeRequests.cleaning
    case MaintenanceSlot => s.activeRequests.maintenance
  }

  /** The state after `setCurrentLanguage(language)`. */
  function WithLanguage(s: AppState, language: string): (r: AppState)
    ensures r.currentLanguage == language
    ensures r.dndActive == s.dndActive && r.activeRequests == s.activeRequests
  {
    s.(currentLanguage := language)
  }

  /** The state after `toggleDnd()`. */
  function WithDndToggled(s: AppState): (r: AppState)
    ensures r.dndActive == !s.dndActive
    ensures r.currentLanguage == s.currentLanguage && r.activeRequests == s.activeRequests
  {
    s.(dndActive := !s.dndActive)
  }

  /** The state after writing slot `kind`: the named slot holds `value`, the
      other slot, the language and the flag are as they were. */
  function WithSlot(s: AppState, kind: RequestKind, value: Option<ActiveRequest>): (r: AppState)
    ensures Slot(r, kind) == value
    ensures forall k :: k != kind ==> Slot(r, k) == Slot(s, k)
    ensures r.currentLanguage == s.currentLanguage && r.dndActive == s.dndActive
  {
    match kind
    case CleaningSlot => s.(activeRequests := s.activeRequests.(cleaning := value))
    case MaintenanceSlot => s.(activeRequests := s.activeRequests.(maintenance := value))
  }

  /** Toggling twice is the identity. */
  lemma ToggleTwice(s: AppState)
    ensures WithDndToggled(WithDndToggled(s)) == s
  {
  }

  /** A slot is overwritten, not accumulated: of two adds to one slot only
      the second request is visible. */
  lemma SecondAddOverwrites(s: AppState, kind: RequestKind, first: ActiveRequest, second: ActiveRequest)
    ensures WithSlot(WithSlot(s, kind, Some(first)), kind, Some(second)) == WithSlot(s, kind, Some(second))
  {
  }

  /** Removing is idempotent. */
  lemma RemoveIdempotent(s: AppState, kind: RequestKind)
    ensures WithSlot(WithSlot(s, kind, None), kind, None) == WithSlot(s, kind, None)
  {
  }

  /** Add then remove on one kind leaves that slot empty and the rest of the
      state as it was before the add. */
  lemma AddThenRemove(s: AppState, kind: RequestKind, request: ActiveRequest)
    ensures WithSlot(WithSlot(s, kind, Some(request)), kind, None) == WithSlot(s, kind, None)
    ensures Slot(s, kind).None? ==> WithSlot(WithSlot(s, kind, Some(request)), kind, None) == s
  {
  }

  /** `AppStateProvider`: the store whose record every page reads. */
  class AppStateProvider {
    var currentLanguage: string
    var dndActive: bool
    var activeRequests: ActiveRequests

    function State(): AppState
      reads this
    {
      AppState(currentLanguage, dndActive, activeRequests)
    }

    constructor ()
      ensures State() == InitialAppState()
      ensures currentLanguage == "en" && !dndActive
      ensures activeRequests.cleaning.None? && activeRequests.maintenance.None?
    {
      currentLanguage := "en";
      dndActive := false;
      activeRequests := ActiveRequests(None, None);
    }

    /** Any string is stored; no check against the supported languages. */
    method SetCurrentLanguage(language: string)
      modifies this
      ensures State() == WithLanguage(old(State()), language)
      ensures currentLanguage == language
      ensures dndActive == old(dndActive) && activeRequests == old(activeRequests)
    {
      currentLanguage := language;
    }

    method ToggleDnd()
      modifies this
      ensures State() == WithDndToggled(old(State()))
      ensures dndActive == !old(dndActive)
      ensures currentLanguage == old(currentLanguage) && activeRequests == old(activeRequests)
    {
      dndActive := !dndActive;
    }

    method AddActiveRequest(kind: RequestKind, request: ActiveRequest)
      modifies this
      ensures State() == WithSlot(old(State()), kind, Some(request))
      ensures Slot(State(), kind) == Some(request)
      ensures forall k :: k != kind ==> Slot(State(), k) == Slot(old(State()), k)
      ensures currentLanguage == old(currentLanguage) && dndActive == old(dndActive)
    {
      match kind
      case CleaningSlot => activeRequests := activeRequests.(cleaning := Some(request));
      case MaintenanceSlot => activeRequests := activeRequests.(maintenance := Some(request));
    }

    method RemoveActiveRequest(kind: RequestKind)
      modifies this
      ensures State() == WithSlot(old(State()), kind, None)
      ensures Slot(State(), kind).None?
      ensures forall k :: k != kind ==> Slot(State(), k) == Slot(old(State()), k)
      ensures currentLanguage == old(currentLanguage) && dndActive == old(dndActive)
    {
      match kind
      case CleaningSlot => activeRequests := activeRequests.(cleaning := None);
      case MaintenanceSlot => activeRequests := activeRequests.(maintenance := None);
    }
  }
}
