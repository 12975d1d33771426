/** The host page as one scene component sees it: the element behind its
    `containerRef`, the children appended to that element, and the window's
    `resize` listeners. Elements and listener closures are numbered. */
module Dom {

  /** Registering a new handler and unregistering it again restores the set. */
  lemma AddThenRemove(s: set<nat>, h: nat)
    requires h !in s
    ensures (s + {h}) - {h} == s
  {
  }

  class Page {
    /** `containerRef.current !== null`; React sets and clears it. */
    var container: bool
    var next: nat
    /** Elements appended to the container. */
    var canvases: set<nat>
    /** Handlers registered for the window's `resize` event. */
    var listeners: set<nat>

    ghost predicate Valid()
      reads this
    {
      (forall e :: e in canvases ==> e < next) && (forall h :: h in listeners ==> h < next)
    }

    constructor (present: bool)
      ensures Valid() && container == present && canvases == {} && listeners == {}
    {
      container := present;
      next := 0;
      canvases := {};
      listeners := {};
    }

    /** React attaching the container element to the ref, or detaching it. */
    method SetContainer(present: bool)
      modifies this
      ensures container == present
      ensures next == old(next) && canvases == old(canvases) && listeners == old(listeners)
    {
      container := present;
    }

    /** A new element (a renderer's canvas) or a new closure (a resize handler),
        distinct from everything the page has seen. */
    method Fresh() returns (e: nat)
      requires Valid()
      modifies this
      ensures Valid()
      ensures e == old(next) && e !in canvases && e !in listeners
      ensures next == old(next) + 1 && container == old(container)
      ensures canvases == old(canvases) && listeners == old(listeners)
    {
      e := next;
      next := next + 1;
    }

    /** `containerRef.current.appendChild(e)`: only on a present container. */
    method AppendChild(e: nat)
      requires Valid() && container && e < next
      modifies this
      ensures Valid()
      ensures canvases == old(canvases) + {e}
      ensures next == old(next) && container == old(container) && listeners == old(listeners)
    {
      canvases := canvases + {e};
    }

    /** `containerRef.current.removeChild(e)`: only on a present container, and
        only for one of its children (the DOM throws otherwise). */
    method RemoveChild(e: nat)
      requires Valid() && container && e in canvases
      modifies this
      ensures Valid()
      ensures canvases == old(canvases) - {e}
      ensures next == old(next) && container == old(container) && listeners == old(listeners)
    {
      canvases := canvases - {e};
    }

    /** `window.addEventListener("resize", h)`; registering twice has no effect. */
    method AddResizeListener(h: nat)
      requires Valid() && h < next
      modifies this
      ensures Valid()
      ensures listeners == old(listeners) + {h}
      ensures next == old(next) && container == old(container) && canvases == old(canvases)
    {
      listeners := listeners + {h};
    }

    /** `window.removeEventListener("resize", h)`; no effect if h is not registered. */
    method RemoveResizeListener(h: nat)
      requires Valid()
      modifies this
      ensures Valid()
      ensures listeners == old(listeners) - {h}
      ensures next == old(next) && container == old(container) && canvases == old(canvases)
    {
      listeners := listeners - {h};
    }
  }
}
