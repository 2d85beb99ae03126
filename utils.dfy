/**
 * utils.py: the request decorator, reduced to what its callers see, and
 * `transform_childs_class`, which replaces one entry of a dictionary by its
 * validated model instance.
 */
module Utils {
  import opened Wrappers
  import opened Records
  import opened Json
  import opened Validation

  datatype HttpMethod = GET | PUT

  /** What a decorated method builds: the HTTP method (verb), the URL and the (unserialised) body. */
  datatype Request = Request(verb: HttpMethod, url: string, body: Option<Value>)

  /** One request as sent: a request plus the client's headers. */
  datatype HttpCall = HttpCall(verb: HttpMethod, url: string, headers: map<string, string>, body: Option<Value>)

  /**
   * The network: the parsed JSON object a call answers with, or `None` when the
   * request failed (a transport error or a non-2xx status, which the decorator
   * catches and turns into `None`).
   */
  type Transport = HttpCall -> Option<map<string, Value>>

  /**
   * The decorated call: send the built request with the client's headers. The
   * caller gets the parsed answer, or `None` when the request failed.
   */
  function ApiRequest(req: Request, headers: map<string, string>, transport: Transport): Option<map<string, Value>> {
    transport(HttpCall(req.verb, req.url, headers, req.body))
  }

  /** Python truthiness of a fetched object: present and non-empty (`if data:`). */
  predicate Present(data: Option<map<string, Value>>) {
    data.Some? && data.value != map[]
  }

  /** The dictionary after the call and the call's return value (`Null` for `None`). */
  datatype Transformed = Transformed(parent: map<string, Value>, result: Value)

  /** What `transform_childs_class(parent, child, cls)` does to `parent` and returns. */
  function TransformChild(parent: map<string, Value>, child: string, cls: ModelClass): (t: Transformed)
    // No key is added or removed, and no other key changes.
    ensures t.parent.Keys == parent.Keys
    ensures forall k :: k in parent && k != child ==> t.parent[k] == parent[k]
    // Key absent: nothing changes, the result is None.
    ensures child !in parent ==> t == Transformed(parent, Null)
    // Key present, validation succeeds: the entry becomes the instance, which is returned.
    ensures child in parent && ModelValidate(cls, parent[child]).Ok? ==>
              t.parent[child] == Instance(ModelValidate(cls, parent[child]).value) && t.result == t.parent[child]
    // Key present, validation fails: nothing changes, the result is None.
    ensures child in parent && ModelValidate(cls, parent[child]).Err? ==> t == Transformed(parent, Null)
    // A non-None result is what now sits under `child`, an instance of `cls`.
    ensures t.result != Null ==> child in t.parent && t.parent[child] == t.result
                                 && t.result.Instance? && t.result.model.Class() == cls
  {
    if child in parent then
      match ModelValidate(cls, parent[child])
      case Ok(m) => Transformed(parent[child := Instance(m)], Instance(m))
      case Err(_) => Transformed(parent, Null)
    else
      Transformed(parent, Null)
  }

  /** A Python dictionary whose entries are updated in place. */
  class Dict {
    var entries: map<string, Value>

    constructor (entries: map<string, Value>)
      ensures this.entries == entries
    {
      this.entries := entries;
    }

    /** `transform_childs_class(self, child, cls)`. */
    method TransformChildsClass(child: string, cls: ModelClass) returns (r: Value)
      modifies this
      ensures Transformed(entries, r) == TransformChild(old(entries), child, cls)
      ensures entries.Keys == old(entries).Keys
      ensures forall k :: k in old(entries) && k != child ==> entries[k] == old(entries)[k]
      ensures r != Null ==> child in entries && entries[child] == r
    {
      if child in entries {
        var validated := ModelValidate(cls, entries[child]);
        if validated.Ok? {
          entries := entries[child := Instance(validated.value)];
          r := entries[child];
          return;
        }
      }
      r := Null;
    }
  }
}
