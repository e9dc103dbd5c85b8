/** What the event handler promises about its responses and its calls, proved
    about `EventController.Handle` one stage at a time: the record writes, the
    translations, the work after the acknowledgement, then the whole handler. */
module ControllerProperties {
  import opened Js
  import opened GenerativeModel
  import opened Description
  import opened Translation
  import opened EventController
  import opened Traces

  /** When the handler acknowledges the message: the product type it looked
      up and what it goes on with; None when it answers without acknowledging. */
  function Admitted(body: Value, env: Collaborators): Option<(Value, Context)> {
    match Screen(body, env.decode)
    case Refuse(_) => None
    case Admit(productId) =>
      match env.fetchProduct(productId)
      case Err(_) => None
      case Ok(product) =>
        match Inspect(product)
        case Decline(_) => None
        case Eligible(productType, productName, imageUrl) =>
          var productTypeKey := env.fetchProductType(productType);
          if Truthy(productTypeKey) then Some((productType, Context(productId, productName, imageUrl, productTypeKey)))
          else None
  }

  /** The translations the AI stages produce once acknowledged; None when the
      analysis, the generation or a translation fails. */
  function Translated(ctx: Context, env: Collaborators): Option<map<string, string>> {
    match env.analyzeImage(ctx.imageUrl)
    case Err(_) => None
    case Ok(image) =>
      match GenerateProductDescription(image, ctx.productName, ctx.productTypeKey, env.model)
      case Err(_) => None
      case Ok(text) =>
        match Translations(Locales, DescriptionText(text), env.model)
        case Err(_) => None
        case Ok(translations) => Some(translations)
  }

  /** The create of the staging record succeeds. */
  predicate Created(ctx: Context, env: Collaborators) {
    env.createRecord(ctx.productId, ctx.imageUrl, ctx.productName, ctx.productTypeKey).Ok?
  }

  /** The update of the staging record with these translations succeeds. */
  predicate Updated(ctx: Context, env: Collaborators, translations: map<string, string>) {
    env.updateRecord(ctx.productId, ctx.productName, ctx.imageUrl, translations, ctx.productTypeKey).Ok?
  }

  /** Every stage after the acknowledgement succeeds. */
  predicate Succeeds(ctx: Context, env: Collaborators) {
    match Translated(ctx, env)
    case None => false
    case Some(translations) => Created(ctx, env) && Updated(ctx, env, translations)
  }

  // ---------------------------------------------------------------------
  // The record writes

  /** A 500 follows a failed create or a failed update; nothing is sent when both succeed. */
  lemma PersistStatuses(ctx: Context, env: Collaborators, translations: map<string, string>)
    ensures Statuses(Persist(ctx, env, translations))
            == if Created(ctx, env) && Updated(ctx, env, translations) then [] else [500]
  {
    var create := CreateRecord(ctx.productId, ctx.imageUrl, ctx.productName, ctx.productTypeKey);
    var update := UpdateRecord(ctx.productId, ctx.productName, ctx.imageUrl, translations, ctx.productTypeKey);
    var updated := env.updateRecord(ctx.productId, ctx.productName, ctx.imageUrl, translations, ctx.productTypeKey).Ok?;
    StepStatuses(update, !updated, []);
    StepStatuses(create, !Created(ctx, env), [Called(update)] + (if !updated then [Sent(500)] else []));
  }

  /** The create comes first, and the update follows exactly when the create succeeded. */
  lemma PersistRanks(ctx: Context, env: Collaborators, translations: map<string, string>)
    ensures Ranks(Persist(ctx, env, translations)) == if Created(ctx, env) then WriteStages else [4]
  {
    var create := CreateRecord(ctx.productId, ctx.imageUrl, ctx.productName, ctx.productTypeKey);
    var update := UpdateRecord(ctx.productId, ctx.productName, ctx.imageUrl, translations, ctx.productTypeKey);
    var updated := env.updateRecord(ctx.productId, ctx.productName, ctx.imageUrl, translations, ctx.productTypeKey).Ok?;
    StepRanks(update, !updated, []);
    StepRanks(create, !Created(ctx, env), [Called(update)] + (if !updated then [Sent(500)] else []));
  }

  /** The create is always attempted, with the handler's product values. */
  lemma PersistCreates(ctx: Context, env: Collaborators, translations: map<string, string>)
    ensures Called(CreateRecord(ctx.productId, ctx.imageUrl, ctx.productName, ctx.productTypeKey))
              in Persist(ctx, env, translations)
  {
    var create := CreateRecord(ctx.productId, ctx.imageUrl, ctx.productName, ctx.productTypeKey);
    Step(create, !Created(ctx, env), Persist(ctx, env, translations)[1..]);
  }

  /** The update, with the translations, is made exactly when the create succeeded. */
  lemma PersistUpdates(ctx: Context, env: Collaborators, translations: map<string, string>)
    ensures Called(UpdateRecord(ctx.productId, ctx.productName, ctx.imageUrl, translations, ctx.productTypeKey))
              in Persist(ctx, env, translations)
            <==> Created(ctx, env)
  {
    var create := CreateRecord(ctx.productId, ctx.imageUrl, ctx.productName, ctx.productTypeKey);
    var update := UpdateRecord(ctx.productId, ctx.productName, ctx.imageUrl, translations, ctx.productTypeKey);
    var updated := env.updateRecord(ctx.productId, ctx.productName, ctx.imageUrl, translations, ctx.productTypeKey).Ok?;
    Last(update, !updated);
    Step(create, !Created(ctx, env), [Called(update)] + (if !updated then [Sent(500)] else []));
  }

  /** Nothing but the create, the update after a successful create, and a 500. */
  lemma PersistCalls(ctx: Context, env: Collaborators, translations: map<string, string>)
    ensures forall e :: e in Persist(ctx, env, translations) ==>
              || e == Called(CreateRecord(ctx.productId, ctx.imageUrl, ctx.productName, ctx.productTypeKey))
              || (Created(ctx, env)
                  && e == Called(UpdateRecord(ctx.productId, ctx.productName, ctx.imageUrl, translations, ctx.productTypeKey)))
              || e == Sent(500)
  {
    var create := CreateRecord(ctx.productId, ctx.imageUrl, ctx.productName, ctx.productTypeKey);
    var update := UpdateRecord(ctx.productId, ctx.productName, ctx.imageUrl, translations, ctx.productTypeKey);
    var updated := env.updateRecord(ctx.productId, ctx.productName, ctx.imageUrl, translations, ctx.productTypeKey).Ok?;
    Last(update, !updated);
    Step(create, !Created(ctx, env), [Called(update)] + (if !updated then [Sent(500)] else []));
  }

  // ---------------------------------------------------------------------
  // The translations

  /** A failed translation is answered with a 500; otherwise the writes decide. */
  lemma TranslateStatuses(ctx: Context, env: Collaborators, description: string)
    ensures Statuses(Translate(ctx, env, description))
            == match Translations(Locales, description, env.model)
               case Err(_) => [500]
               case Ok(translations) => Statuses(Persist(ctx, env, translations))
  {
    var result := Translations(Locales, description, env.model);
    AskedBounds(Locales, description, env.model);
    Asks(Asked(Locales, description, env.model), result.Err?,
         if result.Err? then [] else Persist(ctx, env, result.value));
  }

  /** The translation requests come before the writes. */
  lemma TranslateRanks(ctx: Context, env: Collaborators, description: string)
    ensures Ranks(Translate(ctx, env, description)) <= TranslateStages
  {
    var result := Translations(Locales, description, env.model);
    AskedBounds(Locales, description, env.model);
    if result.Err? {
      Asks(Asked(Locales, description, env.model), true, []);
    } else {
      var p := Persist(ctx, env, result.value);
      Asks(Asked(Locales, description, env.model), false, p);
      PersistRanks(ctx, env, result.value);
      HeadIsPrefix(4, [5]);
      PrefixAppend([3, 3, 3], Ranks(p), WriteStages);
    }
  }

  /** A successful translation asks all three locales, then goes on to the writes. */
  lemma TranslateRanksDone(ctx: Context, env: Collaborators, description: string, translations: map<string, string>)
    requires Translations(Locales, description, env.model) == Ok(translations)
    ensures Ranks(Translate(ctx, env, description)) == [3, 3, 3] + Ranks(Persist(ctx, env, translations))
  {
    AskedBounds(Locales, description, env.model);
    Asks(Asked(Locales, description, env.model), false, Persist(ctx, env, translations));
  }

  /** Model requests, a 500, or the writes of a successful translation. */
  lemma TranslateCalls(ctx: Context, env: Collaborators, description: string)
    ensures forall e :: e in Translate(ctx, env, description) ==>
              || (e.Called? && e.call.Ask? && e.call.request in Asked(Locales, description, env.model))
              || e == Sent(500)
              || (Translations(Locales, description, env.model).Ok?
                  && e in Persist(ctx, env, Translations(Locales, description, env.model).value))
  {
    var result := Translations(Locales, description, env.model);
    AskedBounds(Locales, description, env.model);
    Asks(Asked(Locales, description, env.model), result.Err?,
         if result.Err? then [] else Persist(ctx, env, result.value));
  }

  /** A successful translation goes on to the writes. */
  lemma TranslateReaches(ctx: Context, env: Collaborators, description: string)
    ensures match Translations(Locales, description, env.model)
            case Err(_) => true
            case Ok(translations) =>
              forall e :: e in Persist(ctx, env, translations) ==> e in Translate(ctx, env, description)
  {
    var result := Translations(Locales, description, env.model);
    AskedBounds(Locales, description, env.model);
    Asks(Asked(Locales, description, env.model), result.Err?,
         if result.Err? then [] else Persist(ctx, env, result.value));
  }

  // ---------------------------------------------------------------------
  // The work after the acknowledgement

  /** The first AI stage that fails ends the work with a 500; otherwise the writes decide. */
  lemma EnrichStatuses(ctx: Context, env: Collaborators)
    ensures Statuses(Enrich(ctx, env))
            == match Translated(ctx, env)
               case None => [500]
               case Some(translations) => Statuses(Persist(ctx, env, translations))
  {
    var analyse := AnalyzeImage(ctx.imageUrl);
    if env.analyzeImage(ctx.imageUrl).Err? {
      StepStatuses(analyse, true, []);
    } else {
      var image := env.analyzeImage(ctx.imageUrl).value;
      var ask := Ask(DescribeProduct(image, ctx.productName, ctx.productTypeKey));
      var generated := GenerateProductDescription(image, ctx.productName, ctx.productTypeKey, env.model);
      if generated.Err? {
        StepStatuses(ask, true, []);
      } else {
        var description := DescriptionText(generated.value);
        TranslateStatuses(ctx, env, description);
        StepStatuses(ask, false, Translate(ctx, env, description));
      }
      StepStatuses(analyse, false, Generate(ctx, env, image));
    }
  }

  /** After the acknowledgement the calls follow the stages of the pipeline,
      from the image analysis on. */
  lemma EnrichInOrder(ctx: Context, env: Collaborators)
    ensures Ranks(Enrich(ctx, env)) <= EnrichStages
  {
    var analyse := AnalyzeImage(ctx.imageUrl);
    if env.analyzeImage(ctx.imageUrl).Err? {
      StepRanks(analyse, true, []);
      HeadIsPrefix(2, GenerateStages);
    } else {
      var image := env.analyzeImage(ctx.imageUrl).value;
      var g := Generate(ctx, env, image);
      GenerateInOrder(ctx, env, image);
      StepRanks(analyse, false, g);
      PrefixCons(2, Ranks(g), GenerateStages);
    }
  }

  lemma GenerateInOrder(ctx: Context, env: Collaborators, image: ImageData)
    ensures Ranks(Generate(ctx, env, image)) <= GenerateStages
  {
    var ask := Ask(DescribeProduct(image, ctx.productName, ctx.productTypeKey));
    var generated := GenerateProductDescription(image, ctx.productName, ctx.productTypeKey, env.model);
    if generated.Err? {
      StepRanks(ask, true, []);
      HeadIsPrefix(3, TranslateStages);
    } else {
      var t := Translate(ctx, env, DescriptionText(generated.value));
      TranslateRanks(ctx, env, DescriptionText(generated.value));
      StepRanks(ask, false, t);
      PrefixCons(3, Ranks(t), TranslateStages);
    }
  }

  /** The image of the acknowledged product is always analysed. */
  lemma EnrichAnalyses(ctx: Context, env: Collaborators)
    ensures Called(AnalyzeImage(ctx.imageUrl)) in Enrich(ctx, env)
  {
    var e := Enrich(ctx, env);
    assert e[0] == Called(AnalyzeImage(ctx.imageUrl));
  }

  /** The writes made after the AI stages: none when they fail. */
  function Writes(ctx: Context, env: Collaborators): seq<Event> {
    match Translated(ctx, env)
    case None => []
    case Some(translations) => Persist(ctx, env, translations)
  }

  /** The analysis, model requests, a 500, and the writes. */
  lemma EnrichCalls(ctx: Context, env: Collaborators)
    ensures forall x :: x in Enrich(ctx, env) ==>
              x == Called(AnalyzeImage(ctx.imageUrl)) || (x.Called? && x.call.Ask?) || x == Sent(500)
              || x in Writes(ctx, env)
  {
    var analyse := AnalyzeImage(ctx.imageUrl);
    if env.analyzeImage(ctx.imageUrl).Err? {
      Step(analyse, true, []);
    } else {
      var image := env.analyzeImage(ctx.imageUrl).value;
      GenerateCalls(ctx, env, image);
      Step(analyse, false, Generate(ctx, env, image));
    }
  }

  lemma GenerateCalls(ctx: Context, env: Collaborators, image: ImageData)
    requires env.analyzeImage(ctx.imageUrl) == Ok(image)
    ensures forall x :: x in Generate(ctx, env, image) ==>
              (x.Called? && x.call.Ask?) || x == Sent(500) || x in Writes(ctx, env)
  {
    var ask := Ask(DescribeProduct(image, ctx.productName, ctx.productTypeKey));
    var generated := GenerateProductDescription(image, ctx.productName, ctx.productTypeKey, env.model);
    if generated.Err? {
      Step(ask, true, []);
    } else {
      var description := DescriptionText(generated.value);
      TranslateCalls(ctx, env, description);
      Step(ask, false, Translate(ctx, env, description));
    }
  }

  /** The writes, when the AI stages succeed, are all made. */
  lemma EnrichReaches(ctx: Context, env: Collaborators)
    ensures forall x :: x in Writes(ctx, env) ==> x in Enrich(ctx, env)
  {
    var analyse := AnalyzeImage(ctx.imageUrl);
    if env.analyzeImage(ctx.imageUrl).Ok? {
      var image := env.analyzeImage(ctx.imageUrl).value;
      var ask := Ask(DescribeProduct(image, ctx.productName, ctx.productTypeKey));
      var generated := GenerateProductDescription(image, ctx.productName, ctx.productTypeKey, env.model);
      if generated.Ok? {
        var description := DescriptionText(generated.value);
        TranslateReaches(ctx, env, description);
        Step(ask, false, Translate(ctx, env, description));
        Step(analyse, false, Generate(ctx, env, image));
      }
    }
  }

  /** A record update is made only after the AI stages and a successful create,
      with the product values the handler holds and the translations produced. */
  lemma EnrichUpdate(ctx: Context, env: Collaborators)
    ensures forall x :: x in Enrich(ctx, env) && x.Called? && x.call.UpdateRecord? ==>
              && Translated(ctx, env).Some?
              && env.createRecord(ctx.productId, ctx.imageUrl, ctx.productName, ctx.productTypeKey).Ok?
              && x.call == UpdateRecord(ctx.productId, ctx.productName, ctx.imageUrl, Translated(ctx, env).value,
                                        ctx.productTypeKey)
  {
    EnrichCalls(ctx, env);
    if Translated(ctx, env).Some? {
      PersistCalls(ctx, env, Translated(ctx, env).value);
    }
  }

  /** A record is created only after the AI stages, with the handler's product values. */
  lemma EnrichCreate(ctx: Context, env: Collaborators)
    ensures forall x :: x in Enrich(ctx, env) && x.Called? && x.call.CreateRecord? ==>
              Translated(ctx, env).Some?
              && x.call == CreateRecord(ctx.productId, ctx.imageUrl, ctx.productName, ctx.productTypeKey)
  {
    EnrichCalls(ctx, env);
    if Translated(ctx, env).Some? {
      PersistCalls(ctx, env, Translated(ctx, env).value);
    }
  }

  /** An update carries exactly the three locales, each with a non-empty text. */
  lemma EnrichUpdateTexts(ctx: Context, env: Collaborators)
    ensures forall x :: x in Enrich(ctx, env) && x.Called? && x.call.UpdateRecord? ==>
              x.call.translations.Keys == {"en-GB", "en-US", "de-DE"}
              && forall l :: l in x.call.translations ==> x.call.translations[l] != ""
  {
    EnrichUpdate(ctx, env);
    if Translated(ctx, env).Some? {
      TranslatedTexts(ctx, env, Translated(ctx, env).value);
    }
  }

  /** An update follows the create of the same record. */
  lemma EnrichUpdateAfterCreate(ctx: Context, env: Collaborators)
    ensures forall x :: x in Enrich(ctx, env) && x.Called? && x.call.UpdateRecord? ==>
              Called(CreateRecord(x.call.productId, x.call.imageUrl, x.call.productName, x.call.productTypeKey))
                in Enrich(ctx, env)
  {
    EnrichUpdate(ctx, env);
    if Translated(ctx, env).Some? {
      PersistCreates(ctx, env, Translated(ctx, env).value);
      EnrichReaches(ctx, env);
    }
  }

  /** An update is for the acknowledged product, whose image was analysed. */
  lemma EnrichUpdateSameProduct(ctx: Context, env: Collaborators)
    ensures forall x :: x in Enrich(ctx, env) && x.Called? && x.call.UpdateRecord? ==>
              x.call.productId == ctx.productId && x.call.imageUrl == ctx.imageUrl
  {
    EnrichUpdate(ctx, env);
  }

  /** After the acknowledgement nothing more is sent when every stage succeeds,
      and a single 500 otherwise. */
  lemma EnrichOutcome(ctx: Context, env: Collaborators)
    ensures Statuses(Enrich(ctx, env)) == if Succeeds(ctx, env) then [] else [500]
  {
    EnrichStatuses(ctx, env);
    if Translated(ctx, env).Some? {
      PersistStatuses(ctx, env, Translated(ctx, env).value);
    }
  }

  /** When every stage succeeds, each stage after the acknowledgement is called, once, in order. */
  lemma EnrichComplete(ctx: Context, env: Collaborators)
    requires Succeeds(ctx, env)
    ensures Ranks(Enrich(ctx, env)) == EnrichStages
  {
    var translations := Translated(ctx, env).value;
    var image := env.analyzeImage(ctx.imageUrl).value;
    var generated := GenerateProductDescription(image, ctx.productName, ctx.productTypeKey, env.model);
    var description := DescriptionText(generated.value);
    var t := Translate(ctx, env, description);
    PersistRanks(ctx, env, translations);
    TranslateRanksDone(ctx, env, description, translations);
    StepRanks(Ask(DescribeProduct(image, ctx.productName, ctx.productTypeKey)), false, t);
    StepRanks(AnalyzeImage(ctx.imageUrl), false, Generate(ctx, env, image));
    StagesAssemble();
  }

  /** The translations handed to the writes have exactly the three locales as
      keys, each holding a non-empty text. */
  lemma TranslatedTexts(ctx: Context, env: Collaborators, translations: map<string, string>)
    requires Translated(ctx, env) == Some(translations)
    ensures translations.Keys == {"en-GB", "en-US", "de-DE"} && forall l :: l in translations ==> translations[l] != ""
  {
    var image := env.analyzeImage(ctx.imageUrl).value;
    var text := GenerateProductDescription(image, ctx.productName, ctx.productTypeKey, env.model).value;
    var description := DescriptionText(text);
    ServiceKeys(description, env.model);
    TranslationsKeys(Locales, description, env.model);
    forall l | l in translations ensures translations[l] != "" {
      assert env.model(TranslateInto(l, description)) == Replied(Some(translations[l]));
      TranslationsAllOrNothing(Locales, description, env.model);
      assert TranslateOne(l, description, env.model).Ok?;
    }
  }

  // ---------------------------------------------------------------------
  // The whole handler

  /** Without an acknowledgement the handler answers once, having called
      nothing but the product and product-type fetches. */
  lemma HandleRefused(body: Value, env: Collaborators)
    requires Admitted(body, env).None?
    ensures var h := Handle(body, env);
            NoWork(h) && Statuses(h) in {[200], [400], [500]} && Ranks(h) <= [0, 1]
  {
    match Screen(body, env.decode) {
      case Refuse(status) =>
        AnsweredAtOnce(status);
      case Admit(productId) =>
        match env.fetchProduct(productId) {
          case Err(_) =>
            AnsweredAfterFetch(productId, 500);
          case Ok(product) =>
            match Inspect(product) {
              case Decline(status) =>
                AnsweredAfterFetch(productId, status);
              case Eligible(productType, productName, imageUrl) =>
                AnsweredAfterLookUp(productId, productType);
            }
        }
    }
  }

  /** With an acknowledgement: the product, its type, the 200, then the work. */
  lemma HandleAdmitted(body: Value, env: Collaborators, productType: Value, ctx: Context)
    requires Admitted(body, env) == Some((productType, ctx))
    ensures Handle(body, env) == AckedTrace(ctx.productId, productType, Enrich(ctx, env))
  {
  }

  /** The handler answers exactly once, or acknowledges and then reports a later
      failure: the statuses sent are [200], [400], [500] or [200, 500]. */
  lemma HandleStatuses(body: Value, env: Collaborators)
    ensures Statuses(Handle(body, env)) in {[200], [400], [500], [200, 500]}
  {
    if Admitted(body, env).None? {
      HandleRefused(body, env);
    } else {
      var (productType, ctx) := Admitted(body, env).value;
      var e := Enrich(ctx, env);
      HandleAdmitted(body, env, productType, ctx);
      AckedStatuses(ctx.productId, productType, e);
      EnrichOutcome(ctx, env);
      AckStatuses(Statuses(e));
    }
  }

  /** No analysis, generation, translation or record write happens before the
      200 acknowledgement has been sent. */
  lemma AckPrecedesWork(body: Value, env: Collaborators)
    ensures AckedBeforeWork(Handle(body, env))
  {
    var h := Handle(body, env);
    if Admitted(body, env).None? {
      HandleRefused(body, env);
      forall i | 0 <= i < |h| ensures !IsWork(h[i]) {
        assert h[i] in h;
      }
    } else {
      var (productType, ctx) := Admitted(body, env).value;
      HandleAdmitted(body, env, productType, ctx);
      AckedOrder(ctx.productId, productType, Enrich(ctx, env));
    }
  }

  /** The calls follow the pipeline's order, each stage only after every earlier
      one succeeded: the stages called form a prefix of the full pipeline. */
  lemma StagesInOrder(body: Value, env: Collaborators)
    ensures Ranks(Handle(body, env)) <= Pipeline
  {
    if Admitted(body, env).None? {
      HandleRefused(body, env);
      PrefixAppend([0, 1], [], EnrichStages);
      assert [0, 1] + [] == [0, 1];
    } else {
      var (productType, ctx) := Admitted(body, env).value;
      var e := Enrich(ctx, env);
      HandleAdmitted(body, env, productType, ctx);
      AckedRanks(ctx.productId, productType, e);
      EnrichInOrder(ctx, env);
      AckedInPipeline(Ranks(e));
    }
  }

  /** An update carries the translations the AI stages produced: exactly the
      three locales as keys, each holding a non-empty text. */
  lemma UpdateCarriesTranslations(body: Value, env: Collaborators)
    ensures forall x :: x in Handle(body, env) && x.Called? && x.call.UpdateRecord? ==>
              x.call.translations.Keys == {"en-GB", "en-US", "de-DE"}
              && forall l :: l in x.call.translations ==> x.call.translations[l] != ""
  {
    if Admitted(body, env).None? {
      HandleRefused(body, env);
      NoWorkNoWrites(Handle(body, env));
    } else {
      var (productType, ctx) := Admitted(body, env).value;
      HandleAdmitted(body, env, productType, ctx);
      AckedUpdateTexts(ctx, env, productType);
    }
  }

  lemma AckedUpdateTexts(ctx: Context, env: Collaborators, productType: Value)
    ensures forall x :: x in AckedTrace(ctx.productId, productType, Enrich(ctx, env))
                        && x.Called? && x.call.UpdateRecord? ==>
              x.call.translations.Keys == {"en-GB", "en-US", "de-DE"}
              && forall l :: l in x.call.translations ==> x.call.translations[l] != ""
  {
    AckedWork(ctx.productId, productType, Enrich(ctx, env));
    EnrichUpdateTexts(ctx, env);
  }

  /** An update follows the create of the same record, with the same product values. */
  lemma UpdateFollowsCreate(body: Value, env: Collaborators)
    ensures forall x :: x in Handle(body, env) && x.Called? && x.call.UpdateRecord? ==>
              Called(CreateRecord(x.call.productId, x.call.imageUrl, x.call.productName, x.call.productTypeKey))
                in Handle(body, env)
  {
    if Admitted(body, env).None? {
      HandleRefused(body, env);
      NoWorkNoWrites(Handle(body, env));
    } else {
      var (productType, ctx) := Admitted(body, env).value;
      HandleAdmitted(body, env, productType, ctx);
      AckedUpdateAfterCreate(ctx, env, productType);
    }
  }

  lemma AckedUpdateAfterCreate(ctx: Context, env: Collaborators, productType: Value)
    ensures var h := AckedTrace(ctx.productId, productType, Enrich(ctx, env));
            forall x :: x in h && x.Called? && x.call.UpdateRecord? ==>
              Called(CreateRecord(x.call.productId, x.call.imageUrl, x.call.productName, x.call.productTypeKey))
                in h
  {
    var e := Enrich(ctx, env);
    AckedWork(ctx.productId, productType, e);
    AckedContains(ctx.productId, productType, e);
    EnrichUpdateAfterCreate(ctx, env);
  }

  /** An update is for the product that was fetched and whose image was analysed. */
  lemma UpdateSameProduct(body: Value, env: Collaborators)
    ensures forall x :: x in Handle(body, env) && x.Called? && x.call.UpdateRecord? ==>
              Called(FetchProduct(x.call.productId)) in Handle(body, env)
              && Called(AnalyzeImage(x.call.imageUrl)) in Handle(body, env)
  {
    if Admitted(body, env).None? {
      HandleRefused(body, env);
      NoWorkNoWrites(Handle(body, env));
    } else {
      var (productType, ctx) := Admitted(body, env).value;
      HandleAdmitted(body, env, productType, ctx);
      AckedUpdateSameProduct(ctx, env, productType);
    }
  }

  lemma AckedUpdateSameProduct(ctx: Context, env: Collaborators, productType: Value)
    ensures var h := AckedTrace(ctx.productId, productType, Enrich(ctx, env));
            forall x :: x in h && x.Called? && x.call.UpdateRecord? ==>
              Called(FetchProduct(x.call.productId)) in h && Called(AnalyzeImage(x.call.imageUrl)) in h
  {
    var e := Enrich(ctx, env);
    AckedWork(ctx.productId, productType, e);
    AckedFetches(ctx.productId, productType, e);
    EnrichAnalyses(ctx, env);
    AckedContains(ctx.productId, productType, e);
    EnrichUpdateSameProduct(ctx, env);
  }

  /** Once acknowledged, the handler sends nothing more when every later stage
      succeeds, and a single 500 after the 200 when any of them fails. */
  lemma AckedOutcome(body: Value, env: Collaborators, productType: Value, ctx: Context)
    requires Admitted(body, env) == Some((productType, ctx))
    ensures Statuses(Handle(body, env)) == if Succeeds(ctx, env) then [200] else [200, 500]
  {
    var e := Enrich(ctx, env);
    HandleAdmitted(body, env, productType, ctx);
    AckedStatuses(ctx.productId, productType, e);
    EnrichOutcome(ctx, env);
    if Succeeds(ctx, env) {
      assert [200] + Statuses(e) == [200];
    } else {
      assert [200] + Statuses(e) == [200, 500];
    }
  }

  /** A run in which every stage succeeds calls the whole pipeline, each stage
      once and in order. */
  lemma CompleteRun(body: Value, env: Collaborators, productType: Value, ctx: Context)
    requires Admitted(body, env) == Some((productType, ctx)) && Succeeds(ctx, env)
    ensures Ranks(Handle(body, env)) == Pipeline
  {
    HandleAdmitted(body, env, productType, ctx);
    AckedRanks(ctx.productId, productType, Enrich(ctx, env));
    EnrichComplete(ctx, env);
    StagesAssemble();
  }

  /** The message checks answer with one status and call nothing; the product
      checks answer with one status after the product fetch alone. */
  lemma RefusalsCallNothing(body: Value, env: Collaborators)
    ensures Screen(body, env.decode).Refuse? ==>
              Handle(body, env) == [Sent(Screen(body, env.decode).status)]
    ensures Screen(body, env.decode).Admit? && env.fetchProduct(Screen(body, env.decode).productId).Ok?
            && Inspect(env.fetchProduct(Screen(body, env.decode).productId).value).Decline? ==>
              Handle(body, env) == [Called(FetchProduct(Screen(body, env.decode).productId)),
                                               Sent(Inspect(env.fetchProduct(Screen(body, env.decode).productId).value).status)]
  {
  }
}
