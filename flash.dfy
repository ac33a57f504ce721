/** The application-wide flash message: one state cell that `showFlash`
    overwrites and `hideFlash` updates from its previous value. */
module Flash {
  import opened Wrappers

  /** The `flash` state cell. `kind` is the message type ('success', 'error', ...). */
  datatype FlashState = FlashState(show: bool, message: string, kind: string)

  const DefaultKind: string := "success"

  const Initial: FlashState := FlashState(false, "", DefaultKind)

  /** The updater passed to `setFlash` by `hideFlash`: afterwards nothing is
      rendered, and the state changes only if it was shown. */
  function Hidden(prev: FlashState): (f: FlashState)
    ensures !f.show && f.message == prev.message && f.kind == prev.kind
    ensures BannerOf(f).None?
    ensures f == prev <==> !prev.show
  {
    prev.(show := false)
  }

  lemma HiddenIdempotent(f: FlashState)
    ensures Hidden(Hidden(f)) == Hidden(f)
  {
  }

  /** Showing renders exactly the message and type passed; hiding any state
      renders nothing; and a shown state is recovered from what is rendered. */
  lemma ShowHideRender(message: string, kind: string, f: FlashState, g: FlashState)
    ensures BannerOf(FlashState(true, message, kind)) == Some(Banner(message, kind))
    ensures BannerOf(Hidden(f)).None?
    ensures f.show && g.show && BannerOf(f) == BannerOf(g) ==> f == g
  {
  }

  /** What the provider renders above its children: the message component with
      its text and type, present exactly while `show` holds. */
  datatype Banner = Banner(message: string, kind: string)

  function BannerOf(f: FlashState): (b: Option<Banner>)
    ensures b.Some? <==> f.show
    ensures b.Some? ==> b.value == Banner(f.message, f.kind)
    ensures b.Some? ==> f == FlashState(true, b.value.message, b.value.kind)
  {
    if f.show then Some(Banner(f.message, f.kind)) else None
  }

  class FlashProvider {
    var flash: FlashState

    constructor ()
      ensures flash == Initial
    {
      flash := Initial;
    }

    /** `showFlash(message, type = 'success')`; `None` is an omitted type. */
    method ShowFlash(message: string, kind: Option<string>)
      modifies this
      ensures flash == FlashState(true, message, kind.GetOr(DefaultKind))
    {
      flash := FlashState(true, message, kind.GetOr(DefaultKind));
    }

    method HideFlash()
      modifies this
      ensures flash == Hidden(old(flash))
    {
      flash := Hidden(flash);
    }

    function Rendered(): Option<Banner>
      reads this
    {
      BannerOf(flash)
    }
  }

  /** Hiding twice equals hiding once, and hiding keeps the message and type in the state. */
  method HideKeepsMessage(p: FlashProvider, message: string)
    modifies p
    ensures p.flash == FlashState(false, message, "error")
    ensures p.Rendered().None?
  {
    p.ShowFlash(message, Some("error"));
    assert p.Rendered() == Some(Banner(message, "error"));
    p.HideFlash();
    var once := p.flash;
    p.HideFlash();
    assert p.flash == once;
  }
}
