/** `BarcodeScannerCallbackRegistry`: callbacks kept in a shared keyed store under
    `barcode_scanner_callback:<id>`, taken out (and so forgotten) when executed. The store is
    a map updated in place; the UUID generator is a parameter. */
module CallbackRegistry {
  import opened Wrappers
  import opened BarcodeFormats

  const KeyPrefix := "barcode_scanner_callback:"

  /** A registered closure: the scanned value and format in, the new value out. */
  type Callback = (string, Option<BarcodeFormat>) -> string

  /** The store key of a callback id. */
  function Key(id: string): (r: string)
    ensures |r| == |KeyPrefix| + |id| && r[|KeyPrefix|..] == id
  {
    KeyPrefix + id
  }

  /** Distinct ids never share a store entry. */
  lemma KeyInjective(a: string, b: string)
    ensures Key(a) == Key(b) <==> a == b
  {
    if Key(a) == Key(b) {
      assert a == Key(a)[|KeyPrefix|..] == Key(b)[|KeyPrefix|..] == b;
    }
  }

  /** `has`: the store holds an entry for the id. */
  predicate Registered(store: map<string, Callback>, id: string) {
    Key(id) in store
  }

  /** The store after `register` put the callback under the id. */
  function AfterRegister(store: map<string, Callback>, cb: Callback, id: string): (r: map<string, Callback>)
    ensures r.Keys == store.Keys + {Key(id)}
    ensures r[Key(id)] == cb
    ensures forall k :: k in store && k != Key(id) ==> r[k] == store[k]
  {
    store[Key(id) := cb]
  }

  /** What `execute` answers and the store it leaves: a registered callback is pulled out and
      applied; anything else answers the value unchanged and leaves the store as it was. */
  datatype Execution = Execution(result: string, store: map<string, Callback>)

  function Executed(store: map<string, Callback>, id: string, value: string,
                   format: Option<BarcodeFormat>): (r: Execution)
    ensures Registered(store, id) ==> r.result == store[Key(id)](value, format)
    ensures !Registered(store, id) ==> r.result == value && r.store == store
    ensures r.store.Keys == store.Keys - {Key(id)}
    ensures forall k :: k in r.store ==> r.store[k] == store[k]
  {
    if Key(id) in store then Execution(store[Key(id)](value, format), store - {Key(id)})
    else Execution(value, store)
  }

  // ---------------------------------------------------------------------------
  // What the registry promises

  /** After `register`, `has` holds for the returned id and every other entry is kept. */
  lemma RegisterThenHas(store: map<string, Callback>, cb: Callback, id: string, other: string)
    ensures Registered(AfterRegister(store, cb, id), id)
    ensures other != id ==> (Registered(AfterRegister(store, cb, id), other) <==> Registered(store, other))
  {
    KeyInjective(id, other);
  }

  /** Executing a freshly registered id applies that callback to the value and the format. */
  lemma ExecuteRegisteredApplies(store: map<string, Callback>, cb: Callback, id: string,
                                 value: string, format: Option<BarcodeFormat>)
    ensures Executed(AfterRegister(store, cb, id), id, value, format).result == cb(value, format)
  {
  }

  /** Executing pulls the entry: afterwards `has` is false and a second execution answers
      the value unchanged. */
  lemma ExecuteIsOneShot(store: map<string, Callback>, id: string, v1: string, v2: string,
                         f1: Option<BarcodeFormat>, f2: Option<BarcodeFormat>)
    ensures var e1 := Executed(store, id, v1, f1);
      && !Registered(e1.store, id)
      && Executed(e1.store, id, v2, f2) == Execution(v2, e1.store)
  {
  }

  /** Two registrations under different ids are executed independently: each answers its own
      callback's result. */
  lemma IndependentRegistrations(store: map<string, Callback>, cb1: Callback, cb2: Callback,
                                 id1: string, id2: string, value: string, format: Option<BarcodeFormat>)
    requires id1 != id2
    ensures var s := AfterRegister(AfterRegister(store, cb1, id1), cb2, id2);
      var e1 := Executed(s, id1, value, format);
      var e2 := Executed(e1.store, id2, value, format);
      && Registered(s, id1) && Registered(s, id2)
      && e1.result == cb1(value, format)
      && Registered(e1.store, id2)
      && e2.result == cb2(value, format)
      && !Registered(e2.store, id1) && !Registered(e2.store, id2)
  {
    KeyInjective(id1, id2);
  }

  /** The shared store. */
  class Registry {
    var store: map<string, Callback>

    constructor()
      ensures store == map[]
    {
      store := map[];
    }

    /** `register`, with the UUID the generator produces. */
    method Register(cb: Callback, uuid: string) returns (id: string)
      modifies this
      ensures id == uuid
      ensures store == AfterRegister(old(store), cb, id)
    {
      id := uuid;
      store := store[Key(id) := cb];
    }

    /** `execute`: `Cache::pull` reads and removes the entry in one step. */
    method Execute(id: string, value: string, format: Option<BarcodeFormat>) returns (r: string)
      modifies this
      ensures r == Executed(old(store), id, value, format).result
      ensures store == Executed(old(store), id, value, format).store
    {
      var key := Key(id);
      if key !in store {
        return value;
      }
      var cb := store[key];
      store := store - {key};
      r := cb(value, format);
    }

    predicate Has(id: string)
      reads this
    {
      Registered(store, id)
    }
  }
}
