/** `translateProductDescription`: one model request per locale of a fixed list,
    collected into a locale-to-text dictionary, all or nothing. */
module Translation {
  import opened Js
  import opened GenerativeModel

  const Locales: seq<string> := ["en-GB", "en-US", "de-DE"]

  function FailedFor(locale: string): Error {
    Error("Translation to " + locale + " failed.")
  }

  /** What one locale's request yields: the reply's text when it is a non-empty
      string, the rejection unchanged, and "Translation to <locale> failed."
      for a missing response or an empty or undefined text. */
  function TranslateOne(locale: string, description: string, model: Model): (r: Result<string>)
    ensures r.Ok? <==> exists t :: model(TranslateInto(locale, description)) == Replied(Some(t)) && t != ""
    ensures r.Ok? ==> model(TranslateInto(locale, description)) == Replied(Some(r.value)) && r.value != ""
    ensures r.Err? && model(TranslateInto(locale, description)).Threw? ==>
              r.error == model(TranslateInto(locale, description)).error
    ensures r.Err? && !model(TranslateInto(locale, description)).Threw? ==> r.error == FailedFor(locale)
  {
    match model(TranslateInto(locale, description))
    case Threw(e) => Err(e)
    case NoResponse => Err(FailedFor(locale))
    case Replied(text) =>
      if text.None? || text.value == "" then Err(FailedFor(locale)) else Ok(text.value)
  }

  /** The dictionary built from the locales in order, or the first failure. */
  function Translations(locales: seq<string>, description: string, model: Model): Result<map<string, string>>
    decreases |locales|
  {
    if locales == [] then Ok(map[])
    else
      var last := locales[|locales| - 1];
      match Translations(locales[..|locales| - 1], description, model)
      case Err(e) => Err(e)
      case Ok(m) =>
        match TranslateOne(last, description, model)
        case Err(e) => Err(e)
        case Ok(t) => Ok(m[last := t])
  }

  /** The requests sent, in order, for a list of locales. */
  function Requests(locales: seq<string>, description: string): (ps: seq<Request>)
    ensures |ps| == |locales|
    ensures forall i :: 0 <= i < |locales| ==> ps[i] == TranslateInto(locales[i], description)
  {
    seq(|locales|, i requires 0 <= i < |locales| => TranslateInto(locales[i], description))
  }

  /** The requests the service sends, in order: one per locale up to and
      including the first locale whose request fails. */
  function Asked(locales: seq<string>, description: string, model: Model): (ps: seq<Request>)
    decreases |locales|
  {
    if locales == [] then [] else
      var rest := if TranslateOne(locales[0], description, model).Ok? then Asked(locales[1..], description, model) else [];
      [TranslateInto(locales[0], description)] + rest
  }

  lemma RequestsCons(locale: string, locales: seq<string>, description: string)
    ensures Requests([locale] + locales, description) == [TranslateInto(locale, description)] + Requests(locales, description)
  {
    var l := [locale] + locales;
    assert forall j :: 1 <= j < |l| ==> l[j] == locales[j - 1];
  }

  lemma AskedCons(locales: seq<string>, description: string, model: Model)
    requires locales != [] && TranslateOne(locales[0], description, model).Ok?
    ensures Asked(locales, description, model) == [TranslateInto(locales[0], description)] + Asked(locales[1..], description, model)
  {
  }

  /** Past a run of successful locales, the requests sent are theirs followed by
      whatever the rest of the list asks. */
  lemma {:induction false} AskedAppend(done: seq<string>, more: seq<string>, description: string, model: Model)
    requires forall l :: l in done ==> TranslateOne(l, description, model).Ok?
    ensures Asked(done + more, description, model) == Requests(done, description) + Asked(more, description, model)
    decreases |done|
  {
    if done == [] {
      assert done + more == more;
    } else {
      var locales := done + more;
      assert locales[0] == done[0] && locales[1..] == done[1..] + more;
      AskedAppend(done[1..], more, description, model);
      AskedCons(locales, description, model);
      assert done == [done[0]] + done[1..];
      RequestsCons(done[0], done[1..], description);
      ConsAssociates(TranslateInto(done[0], description), Requests(done[1..], description), Asked(more, description, model));
    }
  }

  lemma ConsAssociates<T>(x: T, a: seq<T>, b: seq<T>)
    ensures [x] + (a + b) == ([x] + a) + b
  {
  }

  /** `AskedAppend` at a position of the list. */
  lemma AskedPrefix(locales: seq<string>, description: string, model: Model, i: nat)
    requires i <= |locales|
    requires forall j :: 0 <= j < i ==> TranslateOne(locales[j], description, model).Ok?
    ensures Asked(locales, description, model) == Requests(locales[..i], description) + Asked(locales[i..], description, model)
  {
    forall l | l in locales[..i] ensures TranslateOne(l, description, model).Ok? {
      var j :| 0 <= j < i && locales[..i][j] == l;
    }
    AskedAppend(locales[..i], locales[i..], description, model);
    assert locales[..i] + locales[i..] == locales;
  }

  /** Every request sent asks for one of the locales, with the description unchanged. */
  lemma {:induction false} AskedAreTranslations(locales: seq<string>, description: string, model: Model)
    ensures forall p :: p in Asked(locales, description, model) ==>
              p.TranslateInto? && p.description == description && p.locale in locales
    decreases |locales|
  {
    if locales != [] {
      AskedAreTranslations(locales[1..], description, model);
    }
  }

  /** At most one request per locale is sent, and a successful call sent all of them. */
  lemma AskedBounds(locales: seq<string>, description: string, model: Model)
    ensures |Asked(locales, description, model)| <= |locales|
    ensures Translations(locales, description, model).Ok? ==> Asked(locales, description, model) == Requests(locales, description)
    ensures Translations(locales, description, model).Err? ==> 1 <= |Asked(locales, description, model)|
  {
    AskedLength(locales, description, model);
    TranslationsAllOrNothing(locales, description, model);
    if Translations(locales, description, model).Ok? {
      AskedPrefix(locales, description, model, |locales|);
      assert locales[..|locales|] == locales && locales[|locales|..] == [];
    }
  }

  lemma {:induction false} AskedLength(locales: seq<string>, description: string, model: Model)
    ensures |Asked(locales, description, model)| <= |locales|
    decreases |locales|
  {
    if locales != [] {
      AskedLength(locales[1..], description, model);
    }
  }

  /** The service: asks the model once per locale, in list order, stopping at
      the first failure, which it rethrows unchanged. `asked` is the list of
      requests the model received. */
  method TranslateProductDescription(description: string, model: Model)
    returns (r: Result<map<string, string>>, asked: seq<Request>)
    ensures r == Translations(Locales, description, model)
    ensures asked == Asked(Locales, description, model)
    ensures r.Ok? ==> asked == Requests(Locales, description)
    ensures r.Err? ==> exists k :: 0 <= k < |Locales| && asked == Requests(Locales[..k + 1], description)
                                   && TranslateOne(Locales[k], description, model) == Err(r.error)
  {
    var translations: map<string, string> := map[];
    asked := [];
    var i := 0;
    while i < |Locales|
      invariant 0 <= i <= |Locales|
      invariant Translations(Locales[..i], description, model) == Ok(translations)
      invariant asked == Requests(Locales[..i], description)
      invariant forall j :: 0 <= j < i ==> TranslateOne(Locales[j], description, model).Ok?
    {
      var locale := Locales[i];
      var request := TranslateInto(locale, description);
      RequestsSnoc(Locales, description, i);
      asked := asked + [request];
      var reply := model(request);
      var text: string;
      match reply {
        case Threw(e) =>
          r := Err(e);
          FailsAt(Locales, description, model, i);
          return;
        case NoResponse =>
          r := Err(FailedFor(locale));
          FailsAt(Locales, description, model, i);
          return;
        case Replied(t) =>
          if t.None? || t.value == "" {
            r := Err(FailedFor(locale));
            FailsAt(Locales, description, model, i);
            return;
          }
          text := t.value;
      }
      assert Locales[..i + 1][..i] == Locales[..i];
      translations := translations[locale := text];
      i := i + 1;
    }
    assert Locales[..i] == Locales;
    AskedPrefix(Locales, description, model, i);
    r := Ok(translations);
  }

  lemma RequestsSnoc(locales: seq<string>, description: string, i: nat)
    requires i < |locales|
    ensures Requests(locales[..i + 1], description) == Requests(locales[..i], description) + [TranslateInto(locales[i], description)]
  {
  }

  /** Once a prefix of the locales fails, the whole list fails with the same error. */
  lemma {:induction false} FailureSticks(locales: seq<string>, description: string, model: Model, n: nat)
    requires n <= |locales| && Translations(locales[..n], description, model).Err?
    ensures Translations(locales, description, model) == Translations(locales[..n], description, model)
    decreases |locales|
  {
    if n == |locales| {
      assert locales[..n] == locales;
    } else {
      var init := locales[..|locales| - 1];
      assert init[..n] == locales[..n];
      FailureSticks(init, description, model, n);
    }
  }

  /** The first locale that fails decides the result and is the last one asked. */
  lemma FailsAt(locales: seq<string>, description: string, model: Model, i: nat)
    requires i < |locales| && Translations(locales[..i], description, model).Ok?
    requires forall j :: 0 <= j < i ==> TranslateOne(locales[j], description, model).Ok?
    requires TranslateOne(locales[i], description, model).Err?
    ensures Translations(locales, description, model) == Err(TranslateOne(locales[i], description, model).error)
    ensures Asked(locales, description, model) == Requests(locales[..i + 1], description)
  {
    assert locales[..i + 1][..i] == locales[..i];
    FailureSticks(locales, description, model, i + 1);
    AskedPrefix(locales, description, model, i);
    RequestsSnoc(locales, description, i);
  }

  /** On success the dictionary has exactly the requested locales as keys, each
      holding the text the model gave for that locale's request. */
  lemma {:induction false} TranslationsKeys(locales: seq<string>, description: string, model: Model)
    requires Translations(locales, description, model).Ok?
    ensures Translations(locales, description, model).value.Keys == set l | l in locales
    ensures forall l :: l in locales ==>
              model(TranslateInto(l, description)) == Replied(Some(Translations(locales, description, model).value[l]))
    decreases |locales|
  {
    if locales != [] {
      var init := locales[..|locales| - 1];
      var last := locales[|locales| - 1];
      TranslationsKeys(init, description, model);
      assert locales == init + [last];
      forall l | l in locales
        ensures model(TranslateInto(l, description)) == Replied(Some(Translations(locales, description, model).value[l]))
      {
        if l != last {
          assert l in init;
        }
      }
    }
  }

  /** All or nothing: the call succeeds exactly when every locale's request does,
      and a failure reports the error of the first locale (in list order) that failed. */
  lemma {:induction false} TranslationsAllOrNothing(locales: seq<string>, description: string, model: Model)
    ensures Translations(locales, description, model).Ok? <==>
              forall l :: l in locales ==> TranslateOne(l, description, model).Ok?
    ensures Translations(locales, description, model).Err? ==>
              exists k :: 0 <= k < |locales| && TranslateOne(locales[k], description, model) == Err(Translations(locales, description, model).error)
                          && forall j :: 0 <= j < k ==> TranslateOne(locales[j], description, model).Ok?
    decreases |locales|
  {
    if locales != [] {
      var init := locales[..|locales| - 1];
      var last := locales[|locales| - 1];
      TranslationsAllOrNothing(init, description, model);
      assert locales == init + [last];
      assert forall l :: l in locales <==> l in init || l == last;
      if Translations(init, description, model).Err? {
        var k :| 0 <= k < |init| && TranslateOne(init[k], description, model) == Err(Translations(init, description, model).error)
                 && forall j :: 0 <= j < k ==> TranslateOne(init[j], description, model).Ok?;
        assert locales[k] == init[k];
        assert forall j :: 0 <= j < k ==> locales[j] == init[j];
      } else if TranslateOne(last, description, model).Err? {
        var k := |locales| - 1;
        forall j | 0 <= j < k ensures TranslateOne(locales[j], description, model).Ok? {
          assert locales[j] == init[j];
        }
      }
    }
  }

  /** The service's result has the three fixed locales as its only keys. */
  lemma ServiceKeys(description: string, model: Model)
    requires Translations(Locales, description, model).Ok?
    ensures Translations(Locales, description, model).value.Keys == {"en-GB", "en-US", "de-DE"}
  {
    TranslationsKeys(Locales, description, model);
    assert (set l | l in Locales) == {"en-GB", "en-US", "de-DE"};
  }
}
