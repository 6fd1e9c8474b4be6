/**
 * `ProfilerError`: the base of the profiler's errors. It may chain the
 * error that caused it: the cause's stack is appended to its own, and its
 * JSON form carries the cause's JSON fields together with the cause's
 * message as `previousMessage`, under its own `message`.
 */
module ProfilerError {
  import opened Wrappers
  import opened Dict
  import Js

  const DefaultMessage: string := "Profiler Error"

  /**
   * An `Error` given as the cause: its stack and, when it has a `toJSON`
   * method, the value that method returns.
   */
  datatype Cause = Cause(stack: string, json: Option<Js.Value>)

  /** `{message: m}`. */
  function MessageObject(m: string): Js.Value {
    Js.Obj([("message", Js.Str(m))])
  }

  /**
   * `previousObj.previousMessage = m`, then `Object.assign({}, previousObj, obj)`,
   * where `obj` has the one key `message`.
   */
  function Merged(message: string, fields: seq<(string, Js.Value)>, m: Js.Value): seq<(string, Js.Value)> {
    Put(Assign([], Put(fields, "previousMessage", m)), "message", Js.Str(message))
  }

  /**
   * The JSON form of an error with message `message` and cause `previous`.
   * A falsy `toJSON()` result counts as `{}`; writing `previousMessage`
   * onto a primitive result is a TypeError (class code is strict).
   */
  function Serialize(message: string, previous: Option<Cause>): (r: Result<Js.Value, Js.JsError>)
    ensures r.Success? ==> r.value.Obj? && Get(r.value.fields, "message") == Some(Js.Str(message))
    ensures previous.None? || previous.value.json.None? ==> r == Success(MessageObject(message))
    ensures r.Failure? <==>
      previous.Some? && previous.value.json.Some? && Js.Truthy(previous.value.json.value) && !Js.IsObject(previous.value.json.value)
  {
    if previous.None? || previous.value.json.None? then Success(MessageObject(message))
    else
      var json := previous.value.json.value;
      var previousObj := if Js.Truthy(json) then json else Js.Obj([]);
      if !Js.IsObject(previousObj) then Failure(Js.TypeError)
      else
        Success(Js.Obj(Merged(message, Js.Entries(previousObj), Js.Prop(previousObj, "message").value)))
  }

  /**
   * A cause serialized to a well-formed object contributes every one of its
   * fields other than `message` and `previousMessage`, and its message as
   * `previousMessage`.
   */
  lemma SerializeMerges(message: string, stack: string, fields: seq<(string, Js.Value)>)
    requires Valid(fields)
    ensures var r := Serialize(message, Some(Cause(stack, Some(Js.Obj(fields))))).value;
      && Get(r.fields, "previousMessage") == Some(Get(fields, "message").GetOr(Js.Undefined))
      && forall k | k != "message" && k != "previousMessage" :: Get(r.fields, k) == Get(fields, k)
  {
    var m := Get(fields, "message").GetOr(Js.Undefined);
    var v := Js.Obj(fields);
    assert Js.Entries(v) == fields && Js.Prop(v, "message") == Success(m);
    assert Serialize(message, Some(Cause(stack, Some(v)))) == Success(Js.Obj(Merged(message, fields, m)));
    MergedFields(message, fields, m);
  }

  lemma MergedFields(message: string, fields: seq<(string, Js.Value)>, m: Js.Value)
    requires Valid(fields)
    ensures Get(Merged(message, fields, m), "previousMessage") == Some(m)
    ensures forall k | k != "message" && k != "previousMessage" :: Get(Merged(message, fields, m), k) == Get(fields, k)
  {
    var withPrevious := Put(fields, "previousMessage", m);
    MergedGet(withPrevious, message, "previousMessage");
    forall k | k != "message" && k != "previousMessage"
      ensures Get(Merged(message, fields, m), k) == Get(fields, k)
    {
      MergedGet(withPrevious, message, k);
    }
  }

  /** Reading a key other than `message` from `Object.assign({}, d, {message})`, for a well-formed `d`. */
  lemma MergedGet(d: seq<(string, Js.Value)>, message: string, k: string)
    requires Valid(d) && k != "message"
    ensures Get(Put(Assign([], d), "message", Js.Str(message)), k) == Get(d, k)
  {
    LastValueOfValid(d, k);
    assert Get(Assign([], d), k) == if HasKey(d, k) then LastValue(d, k) else None;
  }

  class Error {
    var message: string
    var stack: string
    var previous: Option<Cause>

    /**
     * `new ProfilerError(msg, previous)`, where `ownStack` is the stack the
     * engine records and `previous` is `None` for anything that is not an
     * `Error` (including `null`).
     */
    constructor(msg: Option<string>, ownStack: string, previous: Option<Cause>)
      ensures message == msg.GetOr(DefaultMessage)
      ensures this.previous == previous
      ensures stack == if previous.Some? then ownStack + "\n" + previous.value.stack else ownStack
    {
      message := msg.GetOr(DefaultMessage);
      stack := ownStack;
      this.previous := None;
      if previous.Some? {
        this.previous := previous;
        stack := stack + "\n" + previous.value.stack;
      }
    }

    /** `toJSON()`. */
    function ToJSON(): (r: Result<Js.Value, Js.JsError>)
      reads this
      ensures r.Success? ==> Js.Prop(r.value, "message") == Success(Js.Str(message))
    {
      Serialize(message, previous)
    }
  }
}
