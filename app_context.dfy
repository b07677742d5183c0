/**
 * The application context: one modal dialog and one toast, each a small
 * record the provider overwrites. `Step` states what each provider
 * operation does to the pair; the `AppProvider` class holds the two records
 * and its methods perform those steps.
 */
module AppContext {
  import opened Wrappers

  datatype ModalType = Info | Success | Error | Warning | Confirm

  /** `AlertColor`, the toast's colour. */
  datatype Severity = Success | Info | Warning | Error

  /** A confirmation callback, known only by its identity: what it does when
      it runs is up to whoever opened the modal. */
  datatype Callback = Callback(id: nat)

  datatype ModalState = ModalState(isOpen: bool, modalType: ModalType, title: string, message: string, onConfirm: Option<Callback>)

  datatype ToastState = ToastState(open: bool, message: string, severity: Severity)

  datatype State = State(modal: ModalState, toast: ToastState)

  /** The provider operations, as its consumers and the snackbar call them. */
  datatype Event =
    | OpenModal(modalType: ModalType, title: string, message: string, onConfirm: Option<Callback>)
    | CloseModal
    | ShowToast(message: string, severity: Option<Severity>)
    | CloseToast(reason: Option<string>)

  const InitialModal: ModalState := ModalState(false, ModalType.Info, "", "", None)
  const InitialToast: ToastState := ToastState(false, "", Severity.Success)
  const Initial: State := State(InitialModal, InitialToast)
  const ClickAway: string := "clickaway"
  const OutsideProvider: string := "useAppContext debe ser usado dentro de un AppProvider"
  /** How long the toast stays before the snackbar asks to close it. */
  const AutoHideMilliseconds: nat := 2500

  predicate IsToastEvent(e: Event)
  {
    e.ShowToast? || e.CloseToast?
  }

  /** One provider operation. Opening stores exactly what it is given;
      closing puts back the initial modal, without any callback; a toast
      shows with severity success unless told otherwise; the snackbar's
      request to close is ignored for a click away and otherwise closes the
      toast, keeping its text and colour. */
  function Step(s: State, e: Event): (r: State)
    ensures !IsToastEvent(e) ==> r.toast == s.toast
    ensures IsToastEvent(e) ==> r.modal == s.modal
    ensures e.OpenModal? ==> r.modal == ModalState(true, e.modalType, e.title, e.message, e.onConfirm)
    ensures e.CloseModal? ==> r.modal == InitialModal && r.modal.onConfirm.None?
    ensures e.ShowToast? ==> r.toast.open && r.toast.message == e.message
    ensures e.ShowToast? ==> r.toast.severity == (if e.severity.Some? then e.severity.value else Severity.Success)
    ensures e.CloseToast? && e.reason == Some(ClickAway) ==> r == s
    ensures e.CloseToast? && e.reason != Some(ClickAway) ==>
      r.toast == ToastState(false, s.toast.message, s.toast.severity)
  {
    match e
    case OpenModal(t, title, message, onConfirm) => s.(modal := ModalState(true, t, title, message, onConfirm))
    case CloseModal => s.(modal := InitialModal)
    case ShowToast(message, severity) =>
      s.(toast := ToastState(true, message, match severity case Some(v) => v case None => Severity.Success))
    case CloseToast(reason) =>
      if reason == Some(ClickAway) then s else s.(toast := s.toast.(open := false))
  }

  /** A sequence of operations, in order. */
  function Run(s: State, es: seq<Event>): State
    decreases |es|
  {
    if es == [] then s else Run(Step(s, es[0]), es[1..])
  }

  function ToastEvents(es: seq<Event>): seq<Event>
  {
    if es == [] then []
    else (if IsToastEvent(es[0]) then [es[0]] else []) + ToastEvents(es[1..])
  }

  function ModalEvents(es: seq<Event>): seq<Event>
  {
    if es == [] then []
    else (if IsToastEvent(es[0]) then [] else [es[0]]) + ModalEvents(es[1..])
  }

  /** The value the provider hands to its consumers. */
  class AppProvider {
    var modal: ModalState
    var toast: ToastState

    function Current(): State
      reads this
    {
      State(modal, toast)
    }

    /** A closed modal of type info with no text, and a closed toast. */
    constructor ()
      ensures Current() == Initial
    {
      modal := InitialModal;
      toast := InitialToast;
    }

    method OpenModal(t: ModalType, title: string, message: string, onConfirm: Option<Callback>)
      modifies this`modal
      ensures Current() == Step(old(Current()), Event.OpenModal(t, title, message, onConfirm))
    {
      modal := ModalState(true, t, title, message, onConfirm);
    }

    method CloseModal()
      modifies this`modal
      ensures Current() == Step(old(Current()), Event.CloseModal)
    {
      modal := ModalState(false, ModalType.Info, "", "", None);
    }

    /** `severity` is None when the caller leaves it out. */
    method ShowToast(message: string, severity: Option<Severity>)
      modifies this`toast
      ensures Current() == Step(old(Current()), Event.ShowToast(message, severity))
    {
      var colour := Severity.Success;
      if severity.Some? {
        colour := severity.value;
      }
      toast := ToastState(true, message, colour);
    }

    method HandleCloseToast(reason: Option<string>)
      modifies this`toast
      ensures Current() == Step(old(Current()), Event.CloseToast(reason))
    {
      if reason == Some(ClickAway) {
        return;
      }
      toast := toast.(open := false);
    }
  }

  /** `useAppContext`: the provider's value, or the error thrown when the
      caller is not inside a provider. */
  function UseAppContext(context: Option<AppProvider>): (r: Result<AppProvider, string>)
    ensures r.Failure? <==> context.None?
    ensures r.Failure? ==> r.error == OutsideProvider
    ensures r.Success? ==> r.value == context.value
  {
    match context
    case Some(p) => Result.Success(p)
    case None => Failure(OutsideProvider)
  }

  // ---------------------------------------------------------------------------
  // Lemmas

  /** Closing the modal twice is closing it once, and whatever was open
      before, closing forgets its callback. */
  lemma CloseModalIdempotent(s: State)
    ensures Step(Step(s, CloseModal), CloseModal) == Step(s, CloseModal)
    ensures Step(s, CloseModal).modal == Initial.modal
  {
  }

  /** Opening and then closing leaves the modal as it started, whatever it was
      given to show or to confirm. */
  lemma OpenThenCloseForgets(s: State, t: ModalType, title: string, message: string, onConfirm: Option<Callback>)
    ensures Step(Step(s, OpenModal(t, title, message, onConfirm)), CloseModal) == Step(s, CloseModal)
  {
  }

  /** A close request can be repeated without effect, two close requests
      commute, and a toast that was never shown stays as it is. */
  lemma CloseToastIdempotent(s: State, reason: Option<string>, again: Option<string>)
    ensures Step(Step(s, CloseToast(reason)), CloseToast(reason)) == Step(s, CloseToast(reason))
    ensures Step(Step(s, CloseToast(reason)), CloseToast(again)) == Step(Step(s, CloseToast(again)), CloseToast(reason))
    ensures !s.toast.open ==> Step(s, CloseToast(reason)) == s
  {
  }

  /** The toast after any sequence of operations is the toast after its toast
      operations alone: modal operations never reach it. */
  lemma {:induction false} ToastIgnoresModalEvents(s1: State, s2: State, es: seq<Event>)
    requires s1.toast == s2.toast
    ensures Run(s1, es).toast == Run(s2, ToastEvents(es)).toast
    decreases |es|
  {
    if es != [] {
      var e := es[0];
      if IsToastEvent(e) {
        assert ToastEvents(es) == [e] + ToastEvents(es[1..]);
        assert ([e] + ToastEvents(es[1..]))[1..] == ToastEvents(es[1..]);
        ToastIgnoresModalEvents(Step(s1, e), Step(s2, e), es[1..]);
      } else {
        assert ToastEvents(es) == ToastEvents(es[1..]);
        ToastIgnoresModalEvents(Step(s1, e), s2, es[1..]);
      }
    }
  }

  /** Likewise, the modal after any sequence of operations is the modal after
      its modal operations alone. */
  lemma {:induction false} ModalIgnoresToastEvents(s1: State, s2: State, es: seq<Event>)
    requires s1.modal == s2.modal
    ensures Run(s1, es).modal == Run(s2, ModalEvents(es)).modal
    decreases |es|
  {
    if es != [] {
      var e := es[0];
      if !IsToastEvent(e) {
        assert ModalEvents(es) == [e] + ModalEvents(es[1..]);
        assert ([e] + ModalEvents(es[1..]))[1..] == ModalEvents(es[1..]);
        ModalIgnoresToastEvents(Step(s1, e), Step(s2, e), es[1..]);
      } else {
        assert ModalEvents(es) == ModalEvents(es[1..]);
        ModalIgnoresToastEvents(Step(s1, e), s2, es[1..]);
      }
    }
  }
}
