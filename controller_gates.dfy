/** The handler's checks one by one, and the stage gating: which check gives
    which answer, and that every call is made only once the checks and stages
    before it have passed. */
module ControllerGates {
  import opened Js
  import opened GenerativeModel
  import opened Description
  import opened Translation
  import opened EventController
  import opened Traces
  import opened ControllerProperties

  // ---------------------------------------------------------------------
  // The message checks: one status, nothing called

  /** A body without a message is answered with a 400 alone. */
  lemma MissingMessage(body: Value, env: Collaborators)
    requires !Truthy(Member(body, "message"))
    ensures Handle(body, env) == [Sent(400)]
  {
  }

  /** Missing data, or data that is blank once decoded and trimmed, is answered with a 400 alone. */
  lemma MissingData(body: Value, env: Collaborators)
    requires Truthy(Member(body, "message"))
    requires var data := Member(Member(body, "message"), "data");
             !Truthy(data) || env.decode(data).Blank?
    ensures Handle(body, env) == [Sent(400)]
  {
  }

  /** Data that fails to decode or parse is answered with a 500 alone, by the catch-all. */
  lemma Unparseable(body: Value, env: Collaborators)
    requires Truthy(Member(body, "message"))
    requires var data := Member(Member(body, "message"), "data");
             Truthy(data) && env.decode(data).Failed?
    ensures Handle(body, env) == [Sent(500)]
  {
  }

  /** The parsed message, for a body whose data decodes and parses. */
  predicate ParsesTo(body: Value, env: Collaborators, messageData: Value) {
    var data := Member(Member(body, "message"), "data");
    Truthy(Member(body, "message")) && Truthy(data) && env.decode(data) == Parsed(messageData)
  }

  /** A notification other than ResourceCreated is answered with a 200 alone. */
  lemma OtherNotification(body: Value, env: Collaborators, messageData: Value)
    requires ParsesTo(body, env, messageData)
    requires Member(messageData, "notificationType") != Str("ResourceCreated")
    ensures Handle(body, env) == [Sent(200)]
  {
  }

  /** A ResourceCreated event of a type other than ProductVariantAdded is answered with a 400 alone. */
  lemma OtherEventType(body: Value, env: Collaborators, messageData: Value)
    requires ParsesTo(body, env, messageData)
    requires Member(messageData, "notificationType") == Str("ResourceCreated")
    requires Member(messageData, "type") != Str("ProductVariantAdded")
    ensures Handle(body, env) == [Sent(400)]
  {
  }

  /** A ProductVariantAdded event without a truthy resource id is answered with a 400 alone. */
  lemma MissingProductId(body: Value, env: Collaborators, messageData: Value)
    requires ParsesTo(body, env, messageData)
    requires Member(messageData, "notificationType") == Str("ResourceCreated")
    requires Member(messageData, "type") == Str("ProductVariantAdded")
    requires !Truthy(Member(Member(messageData, "resource"), "id"))
    ensures Handle(body, env) == [Sent(400)]
  {
  }

  /** A message that passes every check goes on to fetch the product it names. */
  lemma MessageAdmitted(body: Value, env: Collaborators, messageData: Value)
    requires ParsesTo(body, env, messageData)
    requires Member(messageData, "notificationType") == Str("ResourceCreated")
    requires Member(messageData, "type") == Str("ProductVariantAdded")
    requires Truthy(Member(Member(messageData, "resource"), "id"))
    ensures var productId := Member(Member(messageData, "resource"), "id");
            Handle(body, env) == Examine(productId, env) && Handle(body, env)[0] == Called(FetchProduct(productId))
  {
  }

  // ---------------------------------------------------------------------
  // The product checks: the fetch, then one status

  /** A rejected product fetch is answered with a 500 alone. */
  lemma FetchRejected(body: Value, env: Collaborators, productId: Value)
    requires Screen(body, env.decode) == Admit(productId) && env.fetchProduct(productId).Err?
    ensures Handle(body, env) == [Called(FetchProduct(productId)), Sent(500)]
  {
  }

  /** A product declined by its checks is answered with that status right after the fetch. */
  lemma Declined(body: Value, env: Collaborators, productId: Value, product: Value)
    requires Screen(body, env.decode) == Admit(productId) && env.fetchProduct(productId) == Ok(product)
    requires Inspect(product).Decline?
    ensures Handle(body, env) == [Called(FetchProduct(productId)), Sent(Inspect(product).status)]
  {
  }

  /** A current projection without a name map makes the en-GB lookup throw: a 500. */
  lemma NameLookupThrows(body: Value, env: Collaborators, productId: Value, product: Value)
    requires Screen(body, env.decode) == Admit(productId) && env.fetchProduct(productId) == Ok(product)
    requires var current := Member(Member(product, "masterData"), "current");
             !Nullish(current) && Nullish(Member(current, "name"))
    ensures Handle(body, env) == [Called(FetchProduct(productId)), Sent(500)]
  {
    Declined(body, env, productId, product);
  }

  /** A missing product type, en-GB name or image URL is a 400. */
  lemma ProductDataMissing(body: Value, env: Collaborators, productId: Value, product: Value)
    requires Screen(body, env.decode) == Admit(productId) && env.fetchProduct(productId) == Ok(product)
    requires ProductName(product).Ok? && !Complete(product)
    ensures Handle(body, env) == [Called(FetchProduct(productId)), Sent(400)]
  {
    Declined(body, env, productId, product);
  }

  /** Missing or empty staged attributes are a 400. */
  lemma NoAttributes(body: Value, env: Collaborators, productId: Value, product: Value)
    requires Screen(body, env.decode) == Admit(productId) && env.fetchProduct(productId) == Ok(product)
    requires Complete(product) && !Truthy(Member(Attributes(product), "length"))
    ensures Handle(body, env) == [Called(FetchProduct(productId)), Sent(400)]
  {
    Declined(body, env, productId, product);
  }

  /** A search for the flag that throws is a 500. */
  lemma FlagSearchThrows(body: Value, env: Collaborators, productId: Value, product: Value)
    requires Screen(body, env.decode) == Admit(productId) && env.fetchProduct(productId) == Ok(product)
    requires Complete(product) && Truthy(Member(Attributes(product), "length"))
    requires FindByName(Attributes(product), GenerateDescription).Err?
    ensures Handle(body, env) == [Called(FetchProduct(productId)), Sent(500)]
  {
    Declined(body, env, productId, product);
  }

  /** A missing or falsy `generateDescription` flag is a 200. */
  lemma GenerationOff(body: Value, env: Collaborators, productId: Value, product: Value)
    requires Screen(body, env.decode) == Admit(productId) && env.fetchProduct(productId) == Ok(product)
    requires Complete(product) && Truthy(Member(Attributes(product), "length"))
    requires var flag := FindByName(Attributes(product), GenerateDescription);
             flag.Ok? && !(Truthy(flag.value) && Truthy(Member(flag.value, "value")))
    ensures Handle(body, env) == [Called(FetchProduct(productId)), Sent(200)]
  {
    Declined(body, env, productId, product);
  }

  /** Three events written out as one sequence. */
  lemma Three(a: Event, b: Event, c: Event)
    ensures [a] + ([b] + [c]) == [a, b, c]
  {
  }

  /** A missing type key ends the handler with a 500 right after the lookup. */
  lemma LookUpFails(productId: Value, productType: Value, productName: Value, imageUrl: Value, env: Collaborators)
    requires !Truthy(env.fetchProductType(productType))
    ensures Acknowledge(productId, productType, productName, imageUrl, env) == [Called(FetchProductType(productType))] + [Sent(500)]
  {
  }

  /** An eligible product whose type key is missing gets a 500 after the two
      fetches, and no acknowledgement. */
  lemma TypeKeyMissing(body: Value, env: Collaborators, productId: Value, product: Value)
    requires Screen(body, env.decode) == Admit(productId) && env.fetchProduct(productId) == Ok(product)
    requires Inspect(product).Eligible? && !Truthy(env.fetchProductType(Inspect(product).productType))
    ensures Handle(body, env)
            == [Called(FetchProduct(productId)), Called(FetchProductType(Inspect(product).productType)), Sent(500)]
  {
    var v := Inspect(product);
    LookUpFails(productId, v.productType, v.productName, v.imageUrl, env);
    Three(Called(FetchProduct(productId)), Called(FetchProductType(v.productType)), Sent(500));
  }

  /** An eligible product with a type key is acknowledged with a 200 after the
      two fetches, and the work follows with the product's values. */
  lemma Acknowledged(body: Value, env: Collaborators, productId: Value, product: Value)
    requires Screen(body, env.decode) == Admit(productId) && env.fetchProduct(productId) == Ok(product)
    requires Inspect(product).Eligible? && Truthy(env.fetchProductType(Inspect(product).productType))
    ensures var v := Inspect(product);
            var ctx := Context(productId, v.productName, v.imageUrl, env.fetchProductType(v.productType));
            Handle(body, env) == AckedTrace(productId, v.productType, Enrich(ctx, env))
  {
  }

  // ---------------------------------------------------------------------
  // Each stage only after the ones before it succeeded

  /** The product type whose key the handler looks up: Some exactly when the
      message and the product passed every check. */
  function LookedUp(body: Value, env: Collaborators): Option<Value> {
    match Screen(body, env.decode)
    case Refuse(_) => None
    case Admit(productId) =>
      match env.fetchProduct(productId)
      case Err(_) => None
      case Ok(product) =>
        match Inspect(product)
        case Decline(_) => None
        case Eligible(productType, _, _) => Some(productType)
  }

  /** The description handed to the translation: None when the analysis or the
      generation fails. */
  function Described(ctx: Context, env: Collaborators): Option<string> {
    match env.analyzeImage(ctx.imageUrl)
    case Err(_) => None
    case Ok(image) =>
      match GenerateProductDescription(image, ctx.productName, ctx.productTypeKey, env.model)
      case Err(_) => None
      case Ok(text) => Some(DescriptionText(text))
  }

  /** After the acknowledgement every event is a status or a call of the work. */
  lemma EnrichOnlyWork(ctx: Context, env: Collaborators)
    ensures forall x :: x in Enrich(ctx, env) ==> x.Sent? || IsWork(x)
  {
    EnrichCalls(ctx, env);
    if Translated(ctx, env).Some? {
      PersistCalls(ctx, env, Translated(ctx, env).value);
    }
  }

  /** The key looked up after the checks is the eligible product's type's. */
  lemma AcknowledgeLookUp(productId: Value, productType: Value, productName: Value, imageUrl: Value,
                          env: Collaborators)
    ensures forall x :: (x in Acknowledge(productId, productType, productName, imageUrl, env)
                         && x.Called? && x.call.FetchProductType?) ==> x.call.productTypeId == productType
  {
    var key := env.fetchProductType(productType);
    var ctx := Context(productId, productName, imageUrl, key);
    EnrichOnlyWork(ctx, env);
    Members(Sent(200), Enrich(ctx, env));
    Members(Called(FetchProductType(productType)), if !Truthy(key) then [Sent(500)] else [Sent(200)] + Enrich(ctx, env));
  }

  /** The type key is looked up only for a fetched product that passed its checks. */
  lemma ExamineLookUp(productId: Value, env: Collaborators)
    ensures forall x :: x in Examine(productId, env) && x.Called? && x.call.FetchProductType? ==>
              env.fetchProduct(productId).Ok? && Inspect(env.fetchProduct(productId).value).Eligible?
              && x.call.productTypeId == Inspect(env.fetchProduct(productId).value).productType
  {
    var fetch := Called(FetchProduct(productId));
    match env.fetchProduct(productId) {
      case Err(_) =>
        Members(fetch, [Sent(500)]);
      case Ok(product) =>
        match Inspect(product) {
          case Decline(status) =>
            Members(fetch, [Sent(status)]);
          case Eligible(productType, productName, imageUrl) =>
            AcknowledgeLookUp(productId, productType, productName, imageUrl, env);
            Members(fetch, Acknowledge(productId, productType, productName, imageUrl, env));
        }
    }
  }

  /** The product type's key is looked up only once the message and the product
      passed every check, and for that product's type. */
  lemma LookUpAfterChecks(body: Value, env: Collaborators)
    ensures forall x :: x in Handle(body, env) && x.Called? && x.call.FetchProductType? ==>
              LookedUp(body, env) == Some(x.call.productTypeId)
  {
    match Screen(body, env.decode) {
      case Refuse(status) =>
        assert Handle(body, env) == [Sent(status)];
      case Admit(productId) =>
        ExamineLookUp(productId, env);
    }
  }

  /** No work is done unless the type key was found and the message acknowledged. */
  lemma WorkAfterLookUp(body: Value, env: Collaborators)
    ensures forall x :: x in Handle(body, env) && IsWork(x) ==> Admitted(body, env).Some?
  {
    if Admitted(body, env).None? {
      HandleRefused(body, env);
    }
  }

  /** The model requests after the acknowledgement: the description request,
      only after the analysis succeeded, and translation requests, only after
      the generation succeeded, each for the generated description. */
  lemma GenerateAsks(ctx: Context, env: Collaborators, image: ImageData)
    requires env.analyzeImage(ctx.imageUrl) == Ok(image)
    ensures forall x :: x in Generate(ctx, env, image) && x.Called? && x.call.Ask? ==>
              x.call.request == DescribeProduct(image, ctx.productName, ctx.productTypeKey)
              || (x.call.request.TranslateInto? && Described(ctx, env) == Some(x.call.request.description))
  {
    var ask := Called(Ask(DescribeProduct(image, ctx.productName, ctx.productTypeKey)));
    var generated := GenerateProductDescription(image, ctx.productName, ctx.productTypeKey, env.model);
    if generated.Err? {
      Members(ask, [Sent(500)]);
    } else {
      var description := DescriptionText(generated.value);
      var translations := Translations(Locales, description, env.model);
      TranslateCalls(ctx, env, description);
      AskedAreTranslations(Locales, description, env.model);
      if translations.Ok? {
        PersistCalls(ctx, env, translations.value);
      }
      Members(ask, Translate(ctx, env, description));
    }
  }

  lemma EnrichAsks(ctx: Context, env: Collaborators)
    ensures forall x :: x in Enrich(ctx, env) && x.Called? && x.call.Ask? ==>
              env.analyzeImage(ctx.imageUrl).Ok?
              && (x.call.request == DescribeProduct(env.analyzeImage(ctx.imageUrl).value, ctx.productName, ctx.productTypeKey)
                  || (x.call.request.TranslateInto? && Described(ctx, env) == Some(x.call.request.description)))
  {
    var analyse := AnalyzeImage(ctx.imageUrl);
    if env.analyzeImage(ctx.imageUrl).Err? {
      Step(analyse, true, []);
    } else {
      var image := env.analyzeImage(ctx.imageUrl).value;
      GenerateAsks(ctx, env, image);
      Step(analyse, false, Generate(ctx, env, image));
    }
  }

  lemma AckedAsks(ctx: Context, env: Collaborators, productType: Value)
    ensures forall x :: x in AckedTrace(ctx.productId, productType, Enrich(ctx, env)) && x.Called? && x.call.Ask? ==>
              env.analyzeImage(ctx.imageUrl).Ok?
              && (x.call.request == DescribeProduct(env.analyzeImage(ctx.imageUrl).value, ctx.productName, ctx.productTypeKey)
                  || (x.call.request.TranslateInto? && Described(ctx, env) == Some(x.call.request.description)))
  {
    AckedWork(ctx.productId, productType, Enrich(ctx, env));
    EnrichAsks(ctx, env);
  }

  /** A handler that never acknowledges asks the model nothing. */
  lemma RefusedAsksNothing(body: Value, env: Collaborators)
    requires Admitted(body, env).None?
    ensures forall x :: x in Handle(body, env) ==> !(x.Called? && x.call.Ask?)
  {
    HandleRefused(body, env);
    NoWorkOnlyFetches(Handle(body, env));
  }

  /** After the acknowledgement, the description request carries the analysis
      result and the product's name and type key. */
  lemma AckedDescribe(events: seq<Event>, productType: Value, ctx: Context, env: Collaborators)
    requires events == AckedTrace(ctx.productId, productType, Enrich(ctx, env))
    ensures forall x :: x in events && x.Called? && x.call.Ask? && x.call.request.DescribeProduct? ==>
              && env.analyzeImage(ctx.imageUrl) == Ok(x.call.request.image)
              && x.call.request.productName == ctx.productName
              && x.call.request.productTypeKey == ctx.productTypeKey
  {
    AckedAsks(ctx, env, productType);
  }

  /** The description is requested only once the image analysis succeeded, with
      the analysis result and the acknowledged product's name and type key. */
  lemma DescribeAfterAnalysis(body: Value, env: Collaborators)
    ensures forall x :: x in Handle(body, env) && x.Called? && x.call.Ask? && x.call.request.DescribeProduct? ==>
              && Admitted(body, env).Some?
              && env.analyzeImage(Admitted(body, env).value.1.imageUrl) == Ok(x.call.request.image)
              && x.call.request.productName == Admitted(body, env).value.1.productName
              && x.call.request.productTypeKey == Admitted(body, env).value.1.productTypeKey
  {
    if Admitted(body, env).None? {
      RefusedAsksNothing(body, env);
    } else {
      var (productType, ctx) := Admitted(body, env).value;
      HandleAdmitted(body, env, productType, ctx);
      AckedDescribe(Handle(body, env), productType, ctx, env);
    }
  }

  /** A translation is requested only once the analysis and the generation
      succeeded, and it carries the generated description. */
  lemma TranslateAfterGeneration(body: Value, env: Collaborators)
    ensures forall x :: x in Handle(body, env) && x.Called? && x.call.Ask? && x.call.request.TranslateInto? ==>
              Admitted(body, env).Some? && Described(Admitted(body, env).value.1, env) == Some(x.call.request.description)
  {
    if Admitted(body, env).None? {
      RefusedAsksNothing(body, env);
    } else {
      var (productType, ctx) := Admitted(body, env).value;
      HandleAdmitted(body, env, productType, ctx);
      AckedAsks(ctx, env, productType);
    }
  }
}
