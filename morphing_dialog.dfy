/** The morphing dialog (`src/components/core/morphing-dialog.tsx`): the provider's open
    state, the container's Escape listener and page scroll lock, the trigger, close-button,
    Escape and outside-click transitions, the fail-fast context lookup, and the layout ids
    derived from the provider's unique id. */
module MorphingDialogCore {
  import opened Options
  import opened Dom

  /** What the provider shares with its descendants. */
  datatype DialogContext = DialogContext(open: bool, uniqueId: string)

  const MissingProviderMessage: string := "useMorphingDialog must be used within MorphingDialogProvider"

  /** `useMorphingDialog`: the provider's context, or the error it throws when there is none. */
  function UseMorphingDialog(ctx: Option<DialogContext>): (r: Result<DialogContext>)
    ensures r.Failure? <==> ctx.None?
    ensures r.Success? ==> r.value == ctx.value
    ensures r.Failure? ==> r.error == "useMorphingDialog must be used within MorphingDialogProvider"
  {
    if ctx.None? then Failure(MissingProviderMessage) else Success(ctx.value)
  }

  // ---------------------------------------------------------------------------------------
  // Layout ids
  // ---------------------------------------------------------------------------------------

  /** The layout id shared by the trigger and the content panel. */
  function TriggerLayoutId(uniqueId: string): string { "dialog-" + uniqueId }
  function ContentLayoutId(uniqueId: string): string { "dialog-" + uniqueId }
  function ImageLayoutId(uniqueId: string): string { "dialog-img-" + uniqueId }
  function TitleLayoutId(uniqueId: string): string { "dialog-title-" + uniqueId }
  function SubtitleLayoutId(uniqueId: string): string { "dialog-subtitle-" + uniqueId }

  /** The description's layout id; none when layout animation is disabled. */
  function DescriptionLayoutId(uniqueId: string, disableLayoutAnimation: bool): (r: Option<string>)
    ensures r.None? <==> disableLayoutAnimation
  {
    if disableLayoutAnimation then None else Some("dialog-description-" + uniqueId)
  }

  /** Within one dialog the trigger and the content share their id, and the image, title,
      subtitle and description ids differ from it and from each other. */
  lemma LayoutIdsOfOneDialog(u: string)
    ensures TriggerLayoutId(u) == ContentLayoutId(u)
    ensures var ids := [TriggerLayoutId(u), ImageLayoutId(u), TitleLayoutId(u), SubtitleLayoutId(u),
                        DescriptionLayoutId(u, false).value];
            forall i, j :: 0 <= i < j < |ids| ==> ids[i] != ids[j]
  {
    var ids := [TriggerLayoutId(u), ImageLayoutId(u), TitleLayoutId(u), SubtitleLayoutId(u),
                DescriptionLayoutId(u, false).value];
    assert |ids[0]| == 7 + |u| && |ids[1]| == 11 + |u| && |ids[2]| == 13 + |u|;
    assert |ids[3]| == 16 + |u| && |ids[4]| == 19 + |u|;
  }

  /** Dialogs with different unique ids get different ids of each kind. */
  lemma LayoutIdsSeparateDialogs(u: string, v: string)
    requires u != v
    ensures TriggerLayoutId(u) != TriggerLayoutId(v)
    ensures ImageLayoutId(u) != ImageLayoutId(v)
    ensures TitleLayoutId(u) != TitleLayoutId(v)
    ensures SubtitleLayoutId(u) != SubtitleLayoutId(v)
    ensures DescriptionLayoutId(u, false) != DescriptionLayoutId(v, false)
  {
    PrefixCancels("dialog-", u, v);
    PrefixCancels("dialog-img-", u, v);
    PrefixCancels("dialog-title-", u, v);
    PrefixCancels("dialog-subtitle-", u, v);
    PrefixCancels("dialog-description-", u, v);
  }

  lemma PrefixCancels(p: string, u: string, v: string)
    ensures p + u == p + v ==> u == v
  {
    if p + u == p + v {
      assert u == (p + u)[|p|..];
      assert v == (p + v)[|p|..];
    }
  }

  // ---------------------------------------------------------------------------------------
  // State and transitions
  // ---------------------------------------------------------------------------------------

  const EscapeKey: string := "Escape"

  /** One dialog: the provider's `open` flag and unique id, and the container's effect state
      (whether its Escape listener is registered) over the shared page body. */
  class MorphingDialog {
    const uniqueId: string
    const body: Body
    var open: bool
    var escapeListener: bool

    /** The container's effect has run for the current `open`: the listener is registered
        exactly while open, and the page body is locked exactly while open. */
    predicate Synced()
      reads this, body
    {
      escapeListener == open && body.overflow == LockFor(open)
    }

    /** The context this provider gives its descendants. */
    function Context(): (c: DialogContext)
      reads this
      ensures UseMorphingDialog(Some(c)) == Success(c)
      ensures c.open == open && c.uniqueId == uniqueId
    {
      DialogContext(open, uniqueId)
    }

    /** Mounting: closed; the container's first effect writes `overflow = 'auto'` and registers
        no listener. */
    constructor (uniqueId: string, body: Body)
      modifies body
      ensures this.uniqueId == uniqueId && this.body == body
      ensures !open && !escapeListener && body.overflow == Auto
      ensures Synced()
    {
      this.uniqueId, this.body := uniqueId, body;
      open, escapeListener := false, false;
      body.overflow := Auto;
    }

    /** `setOpen(v)`. When the value changes, the container's effect re-runs: the cleanup
        removes the listener and writes 'auto'; then the body locks the page and registers the
        listener when open, or writes 'auto' when closed. An unchanged value re-renders nothing. */
    method SetOpen(v: bool)
      modifies this, body
      ensures open == v
      ensures old(open) != v ==> Synced()
      ensures old(open) == v ==> escapeListener == old(escapeListener) && body.overflow == old(body.overflow)
      ensures old(Synced()) ==> Synced()
    {
      if open != v {
        open := v;
        // cleanup of the previous run
        escapeListener := false;
        body.overflow := Auto;
        // the new run
        if open {
          body.overflow := Hidden;
          escapeListener := true;
        } else {
          body.overflow := Auto;
        }
      }
    }

    /** A click on the trigger opens the dialog. */
    method TriggerClick()
      modifies this, body
      ensures open
      ensures !old(open) ==> body.overflow == Hidden && escapeListener
      ensures old(open) ==> escapeListener == old(escapeListener) && body.overflow == old(body.overflow)
      ensures old(Synced()) ==> Synced()
    {
      SetOpen(true);
    }

    /** The close button closes the dialog; on a closed dialog it changes nothing. */
    method CloseClick()
      modifies this, body
      ensures !open
      ensures old(open) ==> body.overflow == Auto && !escapeListener
      ensures !old(open) ==> escapeListener == old(escapeListener) && body.overflow == old(body.overflow)
      ensures old(Synced()) ==> Synced()
    {
      SetOpen(false);
    }

    /** A window `keydown` event: only a registered listener sees it, and it closes the dialog
        on Escape. */
    method KeyDown(key: string)
      modifies this, body
      ensures old(escapeListener) && key == "Escape" ==> !open
      ensures old(escapeListener) && key == "Escape" && old(open) ==> body.overflow == Auto && !escapeListener
      ensures !(old(escapeListener) && key == "Escape") ==>
                open == old(open) && escapeListener == old(escapeListener) && body.overflow == old(body.overflow)
      ensures old(Synced()) ==> Synced()
    {
      if escapeListener && key == EscapeKey {
        SetOpen(false);
      }
    }

    /** A pointer event outside the content: closes the dialog only when it is open. */
    method OutsideClick()
      modifies this, body
      ensures !open
      ensures old(open) ==> body.overflow == Auto && !escapeListener
      ensures !old(open) ==> escapeListener == old(escapeListener) && body.overflow == old(body.overflow)
      ensures old(Synced()) ==> Synced()
    {
      if open {
        SetOpen(false);
      }
    }

    /** Unmounting the container runs the effect's cleanup: the listener is removed and the
        body is set to 'auto', whatever it held before. */
    method Unmount()
      modifies this, body
      ensures !escapeListener && body.overflow == Auto && open == old(open)
    {
      escapeListener := false;
      body.overflow := Auto;
    }
  }
}
