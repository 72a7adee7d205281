/**
  The values a request's context can hold, and the ways a step can end.

  Context attributes are open-ended Python attributes; the model gives them
  the four kinds of value the engine itself produces: strings (declared
  attributes, header values, generated ids), dicts (payloads, the response's
  header dict), booleans (the `is_default` and `break_sequence` markers),
  None (what a failed lookup with a default yields) and any other object
  (the routed API object), known only by its `str()`.
 */
module Values {

  datatype Option<+T> = None | Some(value: T)

  datatype Value =
    | VStr(s: string)
    | VDict(items: map<string, Value>)
    | VBool(b: bool)
    | VNone
    | VObject(text: string)  // an object of no other kind; `text` is its str()

  /** Python truthiness, as `if x:` and `x and y` read it. */
  predicate Truthy(v: Value)
  {
    match v
    case VStr(s) => s != ""
    case VDict(m) => m != map[]
    case VBool(b) => b
    case VNone => false
    case VObject(_) => true
  }

  /** `getattr(obj, name, default)` on an attribute map. */
  function GetOr(m: map<string, Value>, name: string, default: Value): Value
  {
    if name in m then m[name] else default
  }

  /** The Python exceptions the core raises, one constructor per cause. */
  datatype Error =
    | MissingAttribute(name: string)    // AttributeError: a step or the context lacks `name`
    | UndefinedSequence(name: string)   // KeyError in the named-sequence registry
    | NoSwitchCondition                 // a Case runs with no `switch_condition` on the context
    | UnknownScope(scope: string)       // Property target other than context/request/response/header
    | BadExpression(text: string)       // ValueError / IndexError while splitting an expression
    | UnboundElement                    // UnboundLocalError: `get_element` never assigned
    | NotADict(name: string)            // item assignment or `.get` on something that is not a dict
    | UnknownConverter(name: string)    // KeyError in the converter registry
    | NotALogMethod(name: string)       // calling the logger attribute a Log category names raises
    | ReadOnlyAttribute(name: string)   // setattr on the read-only `GET` property
    | ReadOnlyView                      // TypeError from the header view's __setitem__/__delitem__
    | MissingHeader(key: string)        // KeyError from the header view's __getitem__
    | RecursionLimit                    // RuntimeError: maximum recursion depth exceeded
    | NoApi                             // AttributeError on the `None` API
    | NotFound                          // Raise404Exception: no API matches the path
    | MethodNotAllowed                  // Raise405Exception: the API does not support the method
    | NoSequenceForUri                  // no resource of the API serves this method and path
    | NotAString(name: string)          // a request attribute the router needs is not a string
    | NoStatusCode                      // "No status code set in the response !!"
    | HeadersNotADict                   // the response's headers cannot be iterated as a dict

  datatype Result<+T> = Ok(value: T) | Err(error: Error)

  /**
    How a step's `mediate` ends: normally, by raising `RunOutSequence`
    (the jump to the out-sequence), or by raising any other exception.
   */
  datatype Outcome = Continue | RunOut | Fail(error: Error)
}
