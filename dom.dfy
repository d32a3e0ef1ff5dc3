/**
 * An abstract model of the part of the browser document that the input
 * bindings touch: the set of attached event listeners. A listener is
 * identified by where it is attached (the whole document, or the element
 * with a given id), the event type it listens for, and the handler object
 * that was installed. Handler objects are told apart by a token, which the
 * page hands out afresh for every installation.
 */
module Dom {

  /** Identity of a function a caller passes in to be bound. */
  type Callback = nat

  /** Identity of an installed handler object. */
  type Token = nat

  datatype Target = Document | Element(id: string)

  /** The wrapper that the listener installer builds around a callback. */
  datatype Handler = Handler(token: Token, callback: Callback, inputs: seq<string>, once: bool)

  datatype Listener = Listener(target: Target, eventType: string, handler: Handler)

  /**
   * Where a binding with scope `id` lives: an element when the id is a
   * non-empty (truthy) string, the document otherwise.
   */
  function TargetOf(id: string): (t: Target)
    ensures t == Document <==> id == ""
    ensures t.Element? ==> t.id == id
  {
    if id != "" then Element(id) else Document
  }

  /** The listeners currently attached anywhere in the document. */
  class Page {
    var listeners: set<Listener>
    var nextToken: Token

    /** Every attached handler has a token below the next one to hand out. */
    ghost predicate Valid()
      reads this
    {
      forall l :: l in listeners ==> l.handler.token < nextToken
    }

    constructor ()
      ensures Valid() && listeners == {}
    {
      listeners := {};
      nextToken := 0;
    }

    /** Builds a handler with a token no attached listener uses and attaches it. */
    method Attach(target: Target, eventType: string, callback: Callback, inputs: seq<string>, once: bool)
      returns (h: Handler)
      requires Valid()
      modifies this
      ensures Valid()
      ensures h == Handler(old(nextToken), callback, inputs, once)
      ensures forall l :: l in old(listeners) ==> l.handler.token != h.token
      ensures listeners == old(listeners) + {Listener(target, eventType, h)}
      ensures nextToken == old(nextToken) + 1
    {
      h := Handler(nextToken, callback, inputs, once);
      listeners := listeners + {Listener(target, eventType, h)};
      nextToken := nextToken + 1;
    }

    /**
     * Detaches the listener for `eventType` and `h` from `target`. Detaching a
     * listener that is not attached does nothing. An `Element(id)` target is
     * taken to exist, so its listener is always removed.
     */
    method Detach(target: Target, eventType: string, h: Handler)
      modifies this
      ensures listeners == old(listeners) - {Listener(target, eventType, h)}
      ensures nextToken == old(nextToken)
    {
      listeners := listeners - {Listener(target, eventType, h)};
    }
  }
}
