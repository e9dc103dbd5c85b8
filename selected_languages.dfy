/** `fetchselectedLanguages`: reads the stored language selection and hands it
    on as a list, whatever shape it was stored in. */
module SelectedLanguages {
  import opened Js

  const SelectedLanguagesContainer := "selectedLanguages"
  const SelectedLanguagesKey := "pixelphraser"

  const NullToObject := Error("TypeError: Cannot convert undefined or null to object")

  /** The platform's read of the custom object at (container, key): the stored
      `value`, or the error the request failed with. */
  type Reader = (string, string) -> Result<Value>

  /** `Object.values(v)`: an object's values in entry order, the characters of a
      string, nothing for a number or a boolean; null and undefined throw. */
  function ObjectValues(v: Value): (r: Result<seq<Value>>)
    ensures r.Err? <==> Nullish(v)
    ensures v.Obj? ==> r == Ok(seq(|v.entries|, i requires 0 <= i < |v.entries| => v.entries[i].1))
  {
    match v
    case Undefined => Err(NullToObject)
    case Null => Err(NullToObject)
    case Bool(_) => Ok([])
    case Num(_) => Ok([])
    case Str(s) => Ok(seq(|s|, i requires 0 <= i < |s| => Str([s[i]])))
    case Arr(items) => Ok(items)
    case Obj(entries) => Ok(seq(|entries|, i requires 0 <= i < |entries| => entries[i].1))
  }

  /** `.map(String)`. */
  function Stringify(vs: seq<Value>): (r: seq<Value>)
    ensures |r| == |vs|
    ensures forall i :: 0 <= i < |vs| ==> r[i] == Str(ToStr(vs[i]))
  {
    seq(|vs|, i requires 0 <= i < |vs| => Str(ToStr(vs[i])))
  }

  /** The stored value as a list: an array as it is, anything else through
      `Object.values(...).map(String)`. */
  function Normalise(stored: Value): (r: Result<seq<Value>>)
    ensures stored.Arr? ==> r == Ok(stored.items)
    ensures stored.Obj? ==> r.Ok? && |r.value| == |stored.entries|
                            && forall i :: 0 <= i < |stored.entries| ==> r.value[i] == Str(ToStr(stored.entries[i].1))
    ensures r.Err? <==> Nullish(stored)
    ensures Nullish(stored) ==> r == Err(NullToObject)
    ensures r.Ok? && !stored.Arr? ==> forall x :: x in r.value ==> x.Str?
  {
    if stored.Arr? then Ok(stored.items)
    else
      match ObjectValues(stored)
      case Err(e) => Err(e)
      case Ok(values) => Ok(Stringify(values))
  }

  /** The repository function, over the platform's read. */
  function FetchSelectedLanguages(read: Reader): (r: Result<seq<Value>>)
    ensures read(SelectedLanguagesContainer, SelectedLanguagesKey).Err? ==>
              r == Err(read(SelectedLanguagesContainer, SelectedLanguagesKey).error)
    ensures read(SelectedLanguagesContainer, SelectedLanguagesKey).Ok? ==>
              r == Normalise(read(SelectedLanguagesContainer, SelectedLanguagesKey).value)
  {
    match read(SelectedLanguagesContainer, SelectedLanguagesKey)
    case Err(e) => Err(e)
    case Ok(stored) => Normalise(stored)
  }

  /** Normalising is idempotent: feeding the result back in as an array gives it back,
      and for anything but an array the result holds only strings. */
  lemma NormaliseIdempotent(stored: Value)
    requires Normalise(stored).Ok?
    ensures Normalise(Arr(Normalise(stored).value)) == Normalise(stored)
    ensures !stored.Arr? ==> forall x :: x in Normalise(stored).value ==> x.Str?
  {
  }
}
