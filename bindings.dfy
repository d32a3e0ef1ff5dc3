/**
 * The `Bindings` input registry: a dictionary from binding keys to the
 * records of installed listeners, kept in step with the listeners attached
 * to the page. Every method is proved to leave the state that the matching
 * function of module BindingSpec computes from the state before it.
 */
module Input {
  import opened Dom
  import opened Keys
  import opened BindingSpec

  /** The `types` argument of addBinding: one event type, or an array of them. */
  datatype EventTypes = One(eventType: string) | Many(types: seq<string>)

  class Bindings {
    var bindings: map<string, Record>
    const page: Page

    /** The registry and the page as one value. */
    function Model(): State
      reads this, page
    {
      State(bindings, page.listeners, page.nextToken)
    }

    ghost predicate Valid()
      reads this, page
    {
      Fresh(Model())
    }

    constructor (page: Page)
      requires page.Valid()
      ensures Valid()
      ensures this.page == page && bindings == map[]
    {
      this.page := page;
      bindings := map[];
    }

    /** Whether a record is stored under `binding` (a stored record is an object, hence truthy). */
    function CheckBindingExists(binding: string): (r: bool)
      reads this
      ensures r <==> binding in bindings
    {
      binding in bindings
    }

    /** The current binding map, for inspection. */
    function View(): map<string, Record>
      reads this
    {
      bindings
    }

    /** Detaches the listener of every record present, then empties the map. */
    method RemoveAllBindings()
      requires Valid()
      modifies this, page
      ensures Valid()
      ensures Model() == RemoveAll(old(Model()))
    {
      var remaining := bindings.Keys;
      while remaining != {}
        invariant remaining <= bindings.Keys
        invariant bindings == old(bindings) && page.nextToken == old(page.nextToken)
        invariant page.listeners
               == old(page.listeners) - (set k | k in bindings && k !in remaining :: ListenerOf(bindings[k]))
        decreases remaining
      {
        var binding :| binding in remaining;
        var id := bindings[binding].id;
        var fn := bindings[binding].fn;
        var eventType := bindings[binding].eventType;
        if id != "" {
          page.Detach(Element(id), eventType, fn);
        } else {
          page.Detach(Document, eventType, fn);
        }
        remaining := remaining - {binding};
      }
      assert (set k | k in bindings && k !in remaining :: ListenerOf(bindings[k])) == Live(bindings);
      bindings := map[];
    }

    /**
     * Detaches the listener stored under `binding` (from element `id` when
     * the record's id is non-empty, else from the document) and deletes the
     * record. The record must exist: the lookup is not guarded.
     */
    method RemoveBinding(binding: string)
      requires Valid()
      requires binding in bindings
      modifies this, page
      ensures Valid()
      ensures Model() == Remove(old(Model()), binding)
    {
      var id := bindings[binding].id;
      var fn := bindings[binding].fn;
      var eventType := bindings[binding].eventType;
      if id != "" {
        page.Detach(Element(id), eventType, fn);
      } else {
        page.Detach(Document, eventType, fn);
      }
      bindings := bindings - {binding};
    }

    /**
     * The listener installer inherited from the input base class, kept
     * abstract: it wraps `fn` in a new handler, attaches that handler for
     * `eventType` where `id` says, and returns it.
     */
    method EventListener(fn: Callback, eventType: string, inputs: seq<string>, once: bool, id: string)
      returns (h: Handler)
      requires Valid()
      modifies page
      ensures Valid()
      ensures (Model(), h) == Install(old(Model()), fn, eventType, inputs, once, id)
      ensures forall l :: l in old(page.listeners) ==> l.handler.token != h.token
      ensures forall k :: k in bindings ==> bindings[k].fn.token != h.token
    {
      h := page.Attach(TargetOf(id), eventType, fn, inputs, once);
    }

    /**
     * Registers `fn` for the input codes `inputs`. With one event type the
     * record goes under the bare key, replacing (and first tearing down) any
     * record there. With an array of types each type gets its own record
     * under key+"+"+type; a record already present there triggers
     * removeBinding on the bare key, which must then be bound.
     */
    method AddBinding(fn: Callback, inputs: seq<string>, types: EventTypes, once: bool := true, id: string := "")
      requires Valid()
      requires types.Many? ==> NoCrash(bindings.Keys, BindingKey(inputs), types.types)
      modifies this, page
      ensures Valid()
      ensures types.One? ==> Model() == AddSingle(old(Model()), fn, inputs, types.eventType, once, id)
      ensures types.Many? ==> Model() == AddMulti(old(Model()), fn, inputs, types.types, once, id)
    {
      var key := BindingKey(inputs);
      match types
      case Many(ts) =>
        var i := 0;
        while i < |ts|
          invariant 0 <= i <= |ts|
          invariant Valid()
          invariant NoCrash(bindings.Keys, key, ts[i..])
          invariant AddMulti(Model(), fn, inputs, ts[i..], once, id) == AddMulti(old(Model()), fn, inputs, ts, once, id)
        {
          ghost var before := Model();
          var k := TypedKey(key, ts[i]);
          if CheckBindingExists(k) {
            RemoveBinding(key);
          }
          var h := EventListener(fn, ts[i], inputs, once, id);
          bindings := bindings[k := Record(h, id, ts[i])];
          assert Model() == Step(before, fn, inputs, ts[i], once, id);
          assert ts[i..][1..] == ts[i + 1..];
          i := i + 1;
        }
      case One(t) =>
        if CheckBindingExists(key) {
          RemoveBinding(key);
        }
        var h := EventListener(fn, t, inputs, once, id);
        bindings := bindings[key := Record(h, id, t)];
    }
  }

  /** Registering twice under one key: only the second listener stays attached. */
  method ReplaceOnRegister(page: Page)
    requires page.Valid() && page.listeners == {}
    modifies page
  {
    var b := new Bindings(page);
    b.AddBinding(1, ["KeyA"], One("keydown"));
    var first := b.bindings["KeyA"];
    b.AddBinding(2, ["KeyA"], One("keydown"));
    var second := b.bindings["KeyA"];
    assert ListenerOf(first) !in page.listeners;
    assert page.listeners == {ListenerOf(second)};
    assert second.fn.callback == 2 && second.eventType == "keydown" && second.id == "";
    b.RemoveAllBindings();
    assert page.listeners == {} && b.bindings == map[];
  }
}
