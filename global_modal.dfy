/**
 * The dialog that shows the context's modal: when it is open, which buttons
 * it offers for each modal type, and what each button and the backdrop do.
 */
module GlobalModal {
  import opened Wrappers
  import opened AppContext

  /** What a click does: `closeModal`, or `handleConfirm`. */
  datatype Action = Close | HandleConfirm

  datatype Variant = Outlined | Contained

  datatype ButtonSpec = ButtonSpec(caption: string, onClick: Action, variant: Variant, autoFocus: bool)

  const CancelCaption: string := "Cancelar"
  const ConfirmCaption: string := "Confirmar"
  const CloseCaption: string := "Cerrar"

  /** The dialog is open exactly while the modal is. */
  function DialogOpen(m: ModalState): bool
  {
    m.isOpen
  }

  /** A confirmation offers cancel (which closes) and confirm; every other
      type offers one close button. */
  function Buttons(t: ModalType): (bs: seq<ButtonSpec>)
    ensures t == ModalType.Confirm ==> |bs| == 2 && bs[0].onClick == Close && bs[1].onClick == HandleConfirm
    ensures t == ModalType.Confirm ==> bs[0].caption == CancelCaption && bs[1].caption == ConfirmCaption
    ensures t != ModalType.Confirm ==> bs == [ButtonSpec(CloseCaption, Close, Contained, true)]
  {
    if t == ModalType.Confirm then
      [ButtonSpec(CancelCaption, Close, Outlined, false), ButtonSpec(ConfirmCaption, HandleConfirm, Contained, true)]
    else
      [ButtonSpec(CloseCaption, Close, Contained, true)]
  }

  /** What an action does to the context, and the callback it runs, if any:
      both actions leave the modal closed, and only confirming runs the
      callback. The backdrop and the escape key perform `Close`. */
  function Perform(s: State, a: Action): (r: (State, Option<Callback>))
    ensures r.0 == Step(s, CloseModal)
    ensures a == Close ==> r.1.None?
    ensures a == HandleConfirm ==> r.1 == s.modal.onConfirm
  {
    match a
    case Close => (Step(s, CloseModal), None)
    case HandleConfirm => (Step(s, CloseModal), s.modal.onConfirm)
  }

  /** `handleConfirm` and `closeModal` on the provider: the callback that was
      run comes back as `invoked`. */
  method Click(p: AppProvider, a: Action) returns (invoked: Option<Callback>)
    modifies p`modal
    ensures (p.Current(), invoked) == Perform(old(p.Current()), a)
  {
    invoked := None;
    if a == HandleConfirm && p.modal.onConfirm.Some? {
      invoked := p.modal.onConfirm;
    }
    p.CloseModal();
  }

  // ---------------------------------------------------------------------------
  // Lemmas

  /** Every button a modal offers closes it, and a callback runs only from
      the confirm button of a confirmation. */
  lemma ButtonsClose(s: State, i: int)
    requires 0 <= i < |Buttons(s.modal.modalType)|
    ensures Perform(s, Buttons(s.modal.modalType)[i].onClick).0.modal == InitialModal
    ensures Perform(s, Buttons(s.modal.modalType)[i].onClick).1.Some? ==>
      s.modal.modalType == ModalType.Confirm && i == 1 && s.modal.onConfirm.Some?
  {
  }

  /** The dialog opens on `openModal`, closes on `closeModal`, and toast
      operations leave it as it was. */
  lemma DialogFollowsEvents(s: State, e: Event)
    ensures DialogOpen(Step(s, e).modal) <==> e.OpenModal? || (IsToastEvent(e) && DialogOpen(s.modal))
  {
  }

  /** Confirming a modal opened with a callback runs exactly that callback
      once, and a second confirmation finds nothing left to run. */
  lemma ConfirmRunsOnce(s: State, t: ModalType, title: string, message: string, cb: Callback)
    ensures var shown := Step(s, OpenModal(t, title, message, Some(cb)));
      var (after, first) := Perform(shown, HandleConfirm);
      first == Some(cb) && Perform(after, HandleConfirm).1 == None && !DialogOpen(after.modal)
  {
  }
}
