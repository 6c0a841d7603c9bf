/**
 * The request/response abstraction the CORS handler runs against: the
 * request snapshot it reads, the response header table and `Vary` list it
 * writes, and the three ways the handler can finish.
 */
module Http {
  import opened Wrappers
  import Strings

  /**
   * One inbound request: its method (`verb`) and its header table, keyed by
   * lower-case header name as the Node HTTP layer delivers it.
   */
  datatype Request = Request(verb: string, headers: map<string, string>) {

    /** `this.get(name)`: the header's value, looked up by lower-cased name; "" when absent. */
    function Get(name: string): (v: string)
      ensures Strings.Lower(name) !in headers ==> v == ""
    {
      var key := Strings.Lower(name);
      if key in headers then headers[key] else ""
    }
  }

  /**
   * What the handler can observe and change of a response: the header
   * table (header names as exact keys), the list of fields in `Vary`, and
   * the status code.
   */
  datatype ResponseState = ResponseState(headers: map<string, string>, vary: seq<string>, status: int) {

    /** The value of a response header, if it is set. */
    function Header(name: string): Option<string>
    {
      if name in headers then Some(headers[name]) else None
    }

    /** `this.vary(field)`: append `field` to `Vary` unless it is already listed. */
    function AddVary(field: string): (r: ResponseState)
      ensures field in r.vary && vary <= r.vary && |r.vary| <= |vary| + 1
      ensures r.headers == headers && r.status == status
    {
      if field in vary then this else this.(vary := vary + [field])
    }

    /** `this.set(name, value)`: overwrite (or create) one header. */
    function SetHeader(name: string, value: string): (r: ResponseState)
      ensures r.Header(name) == Some(value)
      ensures forall k :: k != name ==> r.Header(k) == Header(k)
      ensures r.vary == vary && r.status == status
    {
      this.(headers := headers[name := value])
    }

    /** `this.remove(name)`: delete one header; nothing happens when it is absent. */
    function RemoveHeader(name: string): (r: ResponseState)
      ensures r.Header(name) == None
      ensures forall k :: k != name ==> r.Header(k) == Header(k)
      ensures r.vary == vary && r.status == status
    {
      this.(headers := headers - {name})
    }

    /** The `Vary` header as sent: the listed fields joined with ", ". */
    function VaryHeader(): string
    {
      Strings.Join(vary, ", ")
    }
  }

  /** The fields of `fields` that `vary` does not list yet, in their order. */
  function Unlisted(fields: seq<string>, vary: seq<string>): seq<string>
  {
    if |fields| == 0 then []
    else (if fields[0] in vary then [] else [fields[0]]) + Unlisted(fields[1..], vary)
  }

  /** Adding three distinct fields to `Vary` appends, in order, those it did not list. */
  lemma AddVaryThree(r: ResponseState, a: string, b: string, c: string)
    requires a != b && a != c && b != c
    ensures r.AddVary(a).AddVary(b).AddVary(c).vary == r.vary + Unlisted([a, b, c], r.vary)
  {
    assert [a, b, c][1..] == [b, c] && [b, c][1..] == [c] && [c][1..] == [];
    var u0 := if a in r.vary then [] else [a];
    var u1 := if b in r.vary then [] else [b];
    var u2 := if c in r.vary then [] else [c];
    assert Unlisted([c], r.vary) == u2;
    assert Unlisted([b, c], r.vary) == u1 + u2;
    assert Unlisted([a, b, c], r.vary) == u0 + (u1 + u2);
    assert r.AddVary(a).vary == r.vary + u0;
    assert r.AddVary(a).AddVary(b).vary == r.vary + u0 + u1;
  }

  /**
   * How the handler finishes: hand the request on to the next handler,
   * end the response (`this.end()`), or abort it (`this.throw(status, message)`).
   */
  datatype Outcome = Continue | Ended | Rejected(status: int, message: string)

  /** The response object that the handler updates in place. */
  class Response {
    var headers: map<string, string>
    var vary: seq<string>
    var status: int

    /** The response's current observable state. */
    function State(): ResponseState
      reads this
    {
      ResponseState(headers, vary, status)
    }

    constructor (init: ResponseState)
      ensures State() == init
    {
      headers, vary, status := init.headers, init.vary, init.status;
    }

    method Vary(field: string)
      modifies this
      ensures State() == old(State()).AddVary(field)
    {
      if field !in vary {
        vary := vary + [field];
      }
    }

    method Set(name: string, value: string)
      modifies this
      ensures State() == old(State()).SetHeader(name, value)
    {
      headers := headers[name := value];
    }

    method Remove(name: string)
      modifies this
      ensures State() == old(State()).RemoveHeader(name)
    {
      headers := headers - {name};
    }

    method SetStatus(code: int)
      modifies this
      ensures State() == old(State()).(status := code)
    {
      status := code;
    }
  }
}
