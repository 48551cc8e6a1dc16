/**
 * What the screens do to the world outside their own state: the device's
 * key-value store, alert dialogs, HTTP requests sent and navigation. The
 * `Device` keeps the store and a trace of everything observable, in order.
 */
module Platform {
  import opened Js
  import opened Session
  import opened Api

  datatype NavAction =
    | Navigate(route: string, room: Option<Room>)   // navigation.navigate(route[, { room }])
    | GoBack                                        // navigation.goBack()
    | Replace(route: string)                        // navigation.replace(route)

  datatype Event =
    | Alerted(title: string, message: JsValue)
    | Sent(request: Request)
    | Wrote(key: string, value: Stored)
    | Removed(key: string)
    | Navigated(action: NavAction)

  /** The events of a trace that send a request. */
  function Requests(trace: seq<Event>): (rs: seq<Request>)
    ensures |rs| <= |trace|
    ensures forall r :: r in rs <==> Sent(r) in trace
  {
    if trace == [] then []
    else (if trace[0].Sent? then [trace[0].request] else []) + Requests(trace[1..])
  }

  /** The events of a trace that change the store. */
  predicate WritesStorage(e: Event) {
    e.Wrote? || e.Removed?
  }

  class Device {
    var storage: Storage
    var trace: seq<Event>

    constructor (storage: Storage)
      ensures this.storage == storage && trace == []
    {
      this.storage := storage;
      trace := [];
    }

    /** AsyncStorage.getItem */
    method GetItem(key: string) returns (v: Option<Stored>)
      ensures v == Session.GetItem(storage, key)
    {
      v := if key in storage then Some(storage[key]) else None;
    }

    /** AsyncStorage.setItem: replaces any previous value under `key`. */
    method SetItem(key: string, value: Stored)
      modifies this
      ensures storage == old(storage)[key := value]
      ensures trace == old(trace) + [Wrote(key, value)]
    {
      storage := storage[key := value];
      trace := trace + [Wrote(key, value)];
    }

    /** AsyncStorage.removeItem: removing an absent key is not an error. */
    method RemoveItem(key: string)
      modifies this
      ensures storage == old(storage) - {key}
      ensures trace == old(trace) + [Removed(key)]
    {
      storage := storage - {key};
      trace := trace + [Removed(key)];
    }

    /** Alert.alert(title, message) */
    method Alert(title: string, message: JsValue)
      modifies this
      ensures storage == old(storage)
      ensures trace == old(trace) + [Alerted(title, message)]
    {
      trace := trace + [Alerted(title, message)];
    }

    /** Hands a request to the HTTP client. */
    method Send(request: Request)
      modifies this
      ensures storage == old(storage)
      ensures trace == old(trace) + [Sent(request)]
    {
      trace := trace + [Sent(request)];
    }

    method Navigate(action: NavAction)
      modifies this
      ensures storage == old(storage)
      ensures trace == old(trace) + [Navigated(action)]
    {
      trace := trace + [Navigated(action)];
    }
  }
}
