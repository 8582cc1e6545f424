/** Values shared by every module: an optional value, the dynamic values a
    JavaScript object can hold, and the key-down event that the keyboard
    listener exposes. */
module Common {

  /** `T | undefined`. */
  datatype Option<T> = None | Some(value: T) {
    function GetOr(default: T): T {
      match this
      case Some(v) => v
      case None => default
    }
  }

  /** The kinds of value a property of an untyped object may hold. Only the
      distinctions the validators look at are kept: `typeof` of the value and,
      for booleans and strings, the value itself. */
  datatype JsValue =
    | Undefined
    | Boolean(b: bool)
    | Str(s: string)
    | Num(n: int)
    | Func
    | OtherObject

  /** An untyped object, seen as its own enumerable properties. */
  type JsObject = map<string, JsValue>

  /** `obj[k]`: a missing property reads as `undefined`. */
  function Prop(obj: JsObject, k: string): (v: JsValue)
    ensures k !in obj ==> v == Undefined
    ensures k in obj ==> v == obj[k]
  {
    if k in obj then obj[k] else Undefined
  }

  /** A key-down event as the keyboard listener delivers it. `stamp` tells
      two presses apart: every key-down is a new event object, so two presses
      of the same key are different values. */
  datatype KeyPress = KeyPress(
    stamp: nat,
    key: string,
    code: string,
    altKey: bool,
    ctrlKey: bool,
    metaKey: bool,
    shiftKey: bool)
  {
    /** The event as an untyped object, as the registry's validators see it. */
    function AsObject(): (o: JsObject)
      ensures Prop(o, "code") == Str(code)
      ensures Prop(o, "altKey") == Boolean(altKey) && Prop(o, "ctrlKey") == Boolean(ctrlKey)
      ensures Prop(o, "metaKey") == Boolean(metaKey) && Prop(o, "shiftKey") == Boolean(shiftKey)
    {
      map["key" := Str(key), "code" := Str(code),
          "altKey" := Boolean(altKey), "ctrlKey" := Boolean(ctrlKey),
          "metaKey" := Boolean(metaKey), "shiftKey" := Boolean(shiftKey)]
    }

    /** None of meta, ctrl, alt and shift is held. */
    predicate Unmodified() {
      !metaKey && !ctrlKey && !altKey && !shiftKey
    }
  }

  /** Concatenation regroups freely. */
  lemma ConcatAssoc<T>(x: seq<T>, y: seq<T>, z: seq<T>)
    ensures x + (y + z) == (x + y) + z
  {
  }
}
