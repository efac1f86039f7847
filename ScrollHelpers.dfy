/** The page-scroll helpers of the browser script: move a container's scrollTop one page
    (its client height less an overlap buffer) down or up, clamped to the scroll range.
    DOM values are integers here; the console logging is left out. */
module ScrollHelpers {
  import opened Drawing

  /** The buffer both functions use when the caller gives none. */
  const DefaultBuffer: int := 100

  /** The scrolled element: only the three properties the helpers touch. */
  class ScrollContainer {
    var scrollTop: int
    var clientHeight: int
    var scrollHeight: int

    constructor (top: int, client: int, height: int)
      ensures scrollTop == top && clientHeight == client && scrollHeight == height
    {
      scrollTop, clientHeight, scrollHeight := top, client, height;
    }
  }

  /** The new scrollTop of scrollDownOnePage: one page further, but never past the
      largest scroll offset. */
  function PageDownTarget(scrollTop: int, clientHeight: int, scrollHeight: int, buffer: int): (t: int)
    ensures t <= scrollHeight - clientHeight
    ensures t <= scrollTop + (clientHeight - buffer)
    ensures t == scrollTop + (clientHeight - buffer) || t == scrollHeight - clientHeight
  {
    Min(scrollTop + (clientHeight - buffer), scrollHeight - clientHeight)
  }

  /** The new scrollTop of scrollUpOnePage: one page back, but never above the top. */
  function PageUpTarget(scrollTop: int, clientHeight: int, buffer: int): (t: int)
    ensures t >= 0
    ensures t >= scrollTop - (clientHeight - buffer)
    ensures t == scrollTop - (clientHeight - buffer) || t == 0
  {
    Max(scrollTop - (clientHeight - buffer), 0)
  }

  /** Away from both clamps, a page up undoes a page down. */
  lemma PageUpUndoesPageDown(scrollTop: int, clientHeight: int, scrollHeight: int, buffer: int)
    requires scrollTop >= 0
    requires scrollTop + (clientHeight - buffer) <= scrollHeight - clientHeight
    ensures PageUpTarget(PageDownTarget(scrollTop, clientHeight, scrollHeight, buffer), clientHeight, buffer) == scrollTop
  {
  }

  method ScrollDownOnePage(container: ScrollContainer?, buffer: int := DefaultBuffer)
    modifies container
    ensures container != null ==>
              container.scrollTop == PageDownTarget(old(container.scrollTop), old(container.clientHeight), old(container.scrollHeight), buffer) &&
              container.clientHeight == old(container.clientHeight) &&
              container.scrollHeight == old(container.scrollHeight)
  {
    if container == null {
      return;
    }
    var clientHeight := container.clientHeight;
    var scrollAmount := clientHeight - buffer;
    var maxScrollTop := container.scrollHeight - clientHeight;
    var newScrollTop := Min(container.scrollTop + scrollAmount, maxScrollTop);
    container.scrollTop := newScrollTop;
  }

  method ScrollUpOnePage(container: ScrollContainer?, buffer: int := DefaultBuffer)
    modifies container
    ensures container != null ==>
              container.scrollTop == PageUpTarget(old(container.scrollTop), old(container.clientHeight), buffer) &&
              container.clientHeight == old(container.clientHeight) &&
              container.scrollHeight == old(container.scrollHeight)
  {
    if container == null {
      return;
    }
    var clientHeight := container.clientHeight;
    var scrollAmount := clientHeight - buffer;
    var newScrollTop := Max(container.scrollTop - scrollAmount, 0);
    container.scrollTop := newScrollTop;
  }
}
