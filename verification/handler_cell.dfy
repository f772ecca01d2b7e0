/** The reentrancy-safe handler slot. The runtime-checked exclusive borrow of
    the handler is an explicit `inUse` flag; a replacement requested while
    the handler is borrowed is parked in a one-place `replacement` field and
    applied when the borrow ends. */
module HandlerCells {
  import opened Wrappers

  datatype HandlerCell<H> = HandlerCell(handler: Option<H>, replacement: Option<Option<H>>, inUse: bool)
  {
    /** A replacement is only ever pending while the handler is borrowed. */
    predicate Consistent() {
      !inUse ==> replacement.None?
    }

    /** Not borrowed, and nothing pending. */
    predicate Idle() {
      !inUse && replacement.None?
    }
  }

  /** An empty cell: no handler, no pending replacement, not borrowed. */
  function New<H>(): (c: HandlerCell<H>)
    ensures c.Idle() && c.handler.None?
  {
    HandlerCell(None, None, false)
  }

  /** Takes the exclusive borrow that an invocation holds; a second borrow
      would panic, hence the precondition. */
  function Borrow<H>(c: HandlerCell<H>): (g: HandlerCell<H>)
    requires !c.inUse
    ensures g.inUse
    ensures g.handler == c.handler && g.replacement == c.replacement
  {
    c.(inUse := true)
  }

  /** Installs `h` at once when the cell is free (result `true`); otherwise
      records `h` as the pending replacement, overwriting any earlier one,
      and leaves the installed handler alone (result `false`). */
  function Replace<H>(c: HandlerCell<H>, h: Option<H>): (r: (HandlerCell<H>, bool))
    ensures r.1 <==> !c.inUse
    ensures r.0.inUse == c.inUse
    ensures !c.inUse ==> r.0.handler == h && r.0.replacement == c.replacement
    ensures c.inUse ==> r.0.handler == c.handler && r.0.replacement == Some(h)
    ensures c.Consistent() ==> r.0.Consistent()
  {
    if !c.inUse then (c.(handler := h), true)
    else (c.(replacement := Some(h)), false)
  }

  /** Ends the borrow: a pending replacement becomes the handler and the
      pending field is emptied; with none pending the handler stays. */
  function Release<H>(c: HandlerCell<H>): (r: HandlerCell<H>)
    requires c.inUse
    ensures r.Idle()
    ensures c.replacement.Some? ==> r.handler == c.replacement.value
    ensures c.replacement.None? ==> r.handler == c.handler
  {
    match c.replacement
    case Some(h) => HandlerCell(h, None, false)
    case None => c.(inUse := false)
  }

  /** On a free, consistent cell `Replace` installs the handler, leaves
      nothing pending and reports success. */
  lemma ReplaceWhenFree<H>(c: HandlerCell<H>, h: Option<H>)
    requires c.Consistent() && !c.inUse
    ensures Replace(c, h) == (HandlerCell(h, None, false), true)
  {
  }

  /** Of several replacements requested during one borrow only the latest
      is kept. */
  lemma LatestDeferredWins<H>(c: HandlerCell<H>, a: Option<H>, b: Option<H>)
    requires c.inUse
    ensures Replace(Replace(c, a).0, b) == Replace(c, b)
  {
  }

  /** A deferred replacement lands when the borrow ends, and a later
      borrow-and-release cycle with no new request changes nothing: it is
      applied exactly once. */
  lemma DeferredAppliedOnce<H>(c: HandlerCell<H>, h: Option<H>)
    requires c.inUse
    ensures Release(Replace(c, h).0) == HandlerCell(h, None, false)
    ensures Release(Borrow(Release(Replace(c, h).0))) == Release(Replace(c, h).0)
  {
  }

  /** A borrow with no replacement request leaves an idle cell as it was. */
  lemma BorrowReleaseIdentity<H>(c: HandlerCell<H>)
    requires c.Idle()
    ensures Release(Borrow(c)) == c
  {
  }
}
