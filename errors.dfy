/** The EndpointError record (lib/error.js): built from an optional message and
    an optional structure, copying each field only when it has the right type,
    with the prototype supplying the defaults for the fields left unset. */
module Errors {

  import opened Base

  /** The JavaScript values a caller may pass in an error's fields. Numbers are
      modelled as integers. */
  datatype JsValue =
    | Undefined
    | Null
    | Bool(b: bool)
    | Num(n: int)
    | Str(s: string)
    | Obj(ref: nat)

  /** JavaScript truthiness. */
  predicate JsTruthy(v: JsValue) {
    match v
    case Undefined => false
    case Null => false
    case Bool(b) => b
    case Num(n) => n != 0
    case Str(s) => s != ""
    case Obj(_) => true
  }

  /** The optional second argument: an object whose `reason`, `delay` and
      `attempt` properties are read (a missing property reads as Undefined). */
  datatype Fields = Fields(reason: JsValue, delay: JsValue, attempt: JsValue)

  /** What a reader of the constructed error sees, own fields and inherited
      defaults alike. */
  datatype EndpointError = EndpointError(
    name: string,
    message: JsValue,
    reason: string,
    delay: bool,
    attempt: JsValue)

  /** `new EndpointError(message, struct)`. A missing message reads as the
      empty message inherited from Error. */
  function NewEndpointError(message: JsValue, struct: Option<Fields>): (e: EndpointError)
    ensures e.name == "EndpointError"
    ensures message != Undefined ==> e.message == message
    ensures message == Undefined ==> e.message == Str("")
    ensures e.reason != "" ==> struct.Some? && struct.value.reason == Str(e.reason)
    ensures struct.Some? && struct.value.reason.Str? ==> e.reason == struct.value.reason.s
    ensures e.delay <==> struct.Some? && struct.value.delay == Bool(true)
    ensures e.attempt == Null || (struct.Some? && JsTruthy(e.attempt) && e.attempt == struct.value.attempt)
    ensures struct.Some? && JsTruthy(struct.value.attempt) ==> e.attempt == struct.value.attempt
  {
    var msg := if message != Undefined then message else Str("");
    match struct
    case None => EndpointError("EndpointError", msg, "", false, Null)
    case Some(f) =>
      EndpointError(
        "EndpointError",
        msg,
        if f.reason.Str? then f.reason.s else "",
        if f.delay == Bool(true) || f.delay == Bool(false) then f.delay.b else false,
        if JsTruthy(f.attempt) then f.attempt else Null)
  }

  /** The errors the constructor can produce: a defined message, and an
      attempt that is truthy or the null default. */
  predicate Constructible(e: EndpointError) {
    e.name == "EndpointError" && e.message != Undefined && (e.attempt == Null || JsTruthy(e.attempt))
  }

  /** Rebuilding an error from its own readable fields gives the same error:
      every field of a constructed error passes its own type test. */
  lemma RebuildIsIdentity(e: EndpointError)
    requires Constructible(e)
    ensures NewEndpointError(e.message, Some(Fields(Str(e.reason), Bool(e.delay), e.attempt))) == e
  {
  }

  /** Every error the constructor returns is constructible. */
  lemma NewIsConstructible(message: JsValue, struct: Option<Fields>)
    ensures Constructible(NewEndpointError(message, struct))
  {
  }

  /** With no structure every field but the message keeps its prototype default. */
  lemma DefaultsWithoutStruct(message: JsValue)
    ensures var e := NewEndpointError(message, None);
      e.reason == "" && !e.delay && e.attempt == Null
  {
  }

  /** A numeric delay is not copied, so it reads as the default `false`; a
      non-string reason reads as the empty default. */
  lemma NumericDelayReadsFalse(n: int, reason: JsValue, attempt: JsValue)
    requires !reason.Str?
    ensures var e := NewEndpointError(Undefined, Some(Fields(reason, Num(n), attempt)));
      !e.delay && e.reason == ""
  {
  }
}
