/** The admin panel's language selection (`LanguagesConfigured`): the component's
    state fields and the handlers that update them. */
module LanguagesConfigured {
  import opened Js

  const SaveFailed := "Failed to save languages. Please try again."

  /** `s.filter(item => item !== x)`. */
  function Without(s: seq<string>, x: string): (r: seq<string>)
    ensures x !in r
  {
    if s == [] then []
    else if s[0] == x then Without(s[1..], x)
    else [s[0]] + Without(s[1..], x)
  }

  /** The new selection after clicking a language: taken out everywhere if it
      was selected, appended at the end if not. */
  function Toggled(selected: seq<string>, lang: string): seq<string> {
    if lang in selected then Without(selected, lang) else selected + [lang]
  }

  ghost predicate Distinct(s: seq<string>) {
    forall i, j :: 0 <= i < j < |s| ==> s[i] != s[j]
  }

  /** Filtering keeps every other element, each as often as before, in order. */
  lemma {:induction false} WithoutKeepsOthers(s: seq<string>, x: string)
    ensures multiset(Without(s, x)) == multiset(s)[x := 0]
    ensures forall y :: y != x ==> (y in Without(s, x) <==> y in s)
  {
    if s != [] {
      WithoutKeepsOthers(s[1..], x);
      assert s == [s[0]] + s[1..];
      assert multiset(s) == multiset([s[0]]) + multiset(s[1..]);
    }
  }

  lemma {:induction false} WithoutAppended(s: seq<string>, x: string)
    requires x !in s
    ensures Without(s + [x], x) == s
  {
    if s == [] {
      assert [] + [x] == [x];
    } else {
      WithoutAppended(s[1..], x);
      assert (s + [x])[1..] == s[1..] + [x];
      assert s == [s[0]] + s[1..];
    }
  }

  lemma {:induction false} WithoutKeepsDistinct(s: seq<string>, x: string)
    requires Distinct(s)
    ensures Distinct(Without(s, x))
  {
    if s != [] {
      WithoutKeepsDistinct(s[1..], x);
      if s[0] != x {
        WithoutKeepsOthers(s[1..], x);
        assert s[0] !in s[1..];
        assert s[0] !in Without(s[1..], x);
      }
    }
  }

  /** After a toggle the language is selected exactly when it was not before, and
      every other language keeps its membership. */
  lemma ToggleFlipsMembership(selected: seq<string>, lang: string)
    ensures lang in Toggled(selected, lang) <==> lang !in selected
    ensures forall l :: l != lang ==> (l in Toggled(selected, lang) <==> l in selected)
    ensures lang in selected ==> multiset(Toggled(selected, lang))[lang] == 0
  {
    WithoutKeepsOthers(selected, lang);
  }

  /** Toggling a language that is not selected, twice, restores the selection. */
  lemma ToggleTwiceRestores(selected: seq<string>, lang: string)
    requires lang !in selected
    ensures Toggled(Toggled(selected, lang), lang) == selected
  {
    WithoutAppended(selected, lang);
  }

  /** A selection without duplicates stays without duplicates. */
  lemma ToggleKeepsDistinct(selected: seq<string>, lang: string)
    requires Distinct(selected)
    ensures Distinct(Toggled(selected, lang))
  {
    if lang in selected {
      WithoutKeepsDistinct(selected, lang);
    }
  }

  class Panel {
    const languages: seq<string>  // the store's configured languages (the component's prop)
    var selectedLanguages: seq<string>
    var savedLanguages: seq<Value>
    var isSelectionMode: bool
    var successMessage: Option<string>
    var errorMessage: Option<string>
    var loading: bool

    /** The state the component starts with. */
    constructor(languages: seq<string>)
      ensures this.languages == languages
      ensures selectedLanguages == [] && savedLanguages == [] && !isSelectionMode
      ensures successMessage == None && errorMessage == None && loading
    {
      this.languages := languages;
      selectedLanguages := [];
      savedLanguages := [];
      isSelectionMode := false;
      successMessage := None;
      errorMessage := None;
      loading := true;
    }

    /** The "Select Languages" / "Cancel Selection" button is shown only when
        the store has languages configured. */
    predicate ModeButtonShown()
      reads this
    {
      |languages| > 0
    }

    /** The "Save Selection" button is shown only in selection mode with
        something selected. */
    predicate SaveButtonShown()
      reads this
    {
      isSelectionMode && |selectedLanguages| > 0
    }

    /** `loadSavedLanguages`, given the outcome of fetching the stored selection:
        the saved list is replaced only by an array value; loading always ends. */
    method LoadSavedLanguages(response: Result<Value>)
      modifies this
      ensures !loading
      ensures savedLanguages ==
                if response.Ok? && !Nullish(response.value) && Member(response.value, "value").Arr?
                then Member(response.value, "value").items
                else old(savedLanguages)
      ensures selectedLanguages == old(selectedLanguages) && isSelectionMode == old(isSelectionMode)
      ensures successMessage == old(successMessage) && errorMessage == old(errorMessage)
    {
      loading := true;
      if response.Ok? {
        // Reading `response.value` throws on a null or undefined response, which the catch absorbs.
        var read := Access(response.value, "value");
        if read.Ok? {
          var value := read.value;
          if Truthy(value) && value.Arr? {
            savedLanguages := value.items;
          }
        }
      }
      loading := false;
    }

    /** `handleToggleLanguage`. */
    method ToggleLanguage(lang: string)
      modifies this
      ensures selectedLanguages == Toggled(old(selectedLanguages), lang)
      ensures Distinct(old(selectedLanguages)) ==> Distinct(selectedLanguages)
      ensures savedLanguages == old(savedLanguages) && isSelectionMode == old(isSelectionMode)
      ensures successMessage == old(successMessage) && errorMessage == old(errorMessage) && loading == old(loading)
    {
      if lang in selectedLanguages {
        selectedLanguages := Without(selectedLanguages, lang);
      } else {
        selectedLanguages := selectedLanguages + [lang];
      }
      if Distinct(old(selectedLanguages)) {
        ToggleKeepsDistinct(old(selectedLanguages), lang);
      }
    }

    /** `handleSelectAll`. */
    method SelectAll()
      modifies this
      ensures selectedLanguages == languages
      ensures savedLanguages == old(savedLanguages) && isSelectionMode == old(isSelectionMode)
      ensures successMessage == old(successMessage) && errorMessage == old(errorMessage) && loading == old(loading)
    {
      selectedLanguages := languages;
    }

    /** `handleDeselectAll`. */
    method DeselectAll()
      modifies this
      ensures selectedLanguages == []
      ensures !SaveButtonShown()
      ensures savedLanguages == old(savedLanguages) && isSelectionMode == old(isSelectionMode)
      ensures successMessage == old(successMessage) && errorMessage == old(errorMessage) && loading == old(loading)
    {
      selectedLanguages := [];
    }

    /** The mode button's click: flips selection mode and clears the selection. */
    method ToggleSelectionMode()
      requires ModeButtonShown()
      modifies this
      ensures isSelectionMode == !old(isSelectionMode)
      ensures selectedLanguages == []
      ensures !SaveButtonShown()
      ensures savedLanguages == old(savedLanguages)
      ensures successMessage == old(successMessage) && errorMessage == old(errorMessage) && loading == old(loading)
    {
      isSelectionMode := !isSelectionMode;
      selectedLanguages := [];
    }

    /** `handleSaveSelection`, given the outcome of storing the selection. Both
        messages are cleared first. On success the pre-save selection becomes the
        saved list, selection mode ends and the selection is emptied (the success
        notice is a notification, not `successMessage`); on failure only the error
        message is set. `sent` is the list handed to the store. */
    method SaveSelection(outcome: Result<()>) returns (sent: seq<string>)
      modifies this
      ensures sent == old(selectedLanguages)
      ensures successMessage == None
      ensures outcome.Ok? ==>
                savedLanguages == Strings(old(selectedLanguages)) && !isSelectionMode && selectedLanguages == []
                && errorMessage == None && !SaveButtonShown()
      ensures outcome.Err? ==>
                savedLanguages == old(savedLanguages) && isSelectionMode == old(isSelectionMode)
                && selectedLanguages == old(selectedLanguages) && errorMessage == Some(SaveFailed)
      ensures loading == old(loading)
    {
      successMessage := None;
      errorMessage := None;
      sent := selectedLanguages;
      if outcome.Ok? {
        savedLanguages := Strings(selectedLanguages);
        isSelectionMode := false;
        selectedLanguages := [];
      } else {
        errorMessage := Some(SaveFailed);
      }
    }
  }

  /** A list of language codes as the JavaScript strings the saved list holds. */
  function Strings(s: seq<string>): (r: seq<Value>)
    ensures |r| == |s| && forall i :: 0 <= i < |s| ==> r[i] == Str(s[i])
  {
    seq(|s|, i requires 0 <= i < |s| => Str(s[i]))
  }
}
