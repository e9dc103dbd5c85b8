/** The event handler `post`: it screens a Pub/Sub push message, fetches the
    product it names, checks that the product asks for a generated description,
    acknowledges the message, and then runs image analysis, description
    generation, translation and the two custom-object writes. The handler's
    collaborators are given as functions; what the handler does is a trace of the
    calls it makes and the statuses it sends, in order. */
module EventController {
  import opened Js
  import opened GenerativeModel
  import opened Description
  import opened Translation

  /** What decoding the message's `data` gives: base64, then text, then trimmed,
      then `JSON.parse`. Blank: the trimmed text is empty. Failed: decoding or
      parsing threw. */
  datatype Decoded = Blank | Failed(error: Error) | Parsed(value: Value)

  /** The collaborators the handler awaits. `fetchProductType` never rejects: it
      gives the type's key, or null when the request failed. `createRecord` is
      `createProductCustomObject` with the four arguments the handler passes. */
  datatype Collaborators = Collaborators(
    decode: Value -> Decoded,
    fetchProduct: Value -> Result<Value>,
    fetchProductType: Value -> Value,
    analyzeImage: Value -> Result<ImageData>,
    model: Model,
    createRecord: (Value, Value, Value, Value) -> Result<()>,
    updateRecord: (Value, Value, Value, map<string, string>, Value) -> Result<()>)

  datatype Call =
    | FetchProduct(productId: Value)
    | FetchProductType(productTypeId: Value)
    | AnalyzeImage(imageUrl: Value)
    | Ask(request: Request)  // one request to the generative model
    | CreateRecord(productId: Value, imageUrl: Value, productName: Value, productTypeKey: Value)
    | UpdateRecord(productId: Value, productName: Value, imageUrl: Value,
                   translations: map<string, string>, productTypeKey: Value)

  datatype Event = Called(call: Call) | Sent(status: int)

  const GenerateDescription := "generateDescription"

  /** The outcome of the message-level checks, before anything is fetched. */
  datatype Screening = Refuse(status: int) | Admit(productId: Value)

  /** The message-level checks, in order: a missing message, or missing or
      blank data, is a 400; data that fails to decode or parse is a 500 (the
      catch-all); a notification other than ResourceCreated is a 200; an event
      other than ProductVariantAdded, or a falsy resource id, is a 400. A
      message that passes them all goes on with its resource id. */
  function Screen(body: Value, decode: Value -> Decoded): (r: Screening)
    ensures r.Refuse? ==> r.status in {200, 400, 500}
    ensures r.Admit? ==> Truthy(r.productId)
    ensures !Truthy(Member(body, "message")) ==> r == Refuse(400)
    ensures var data := Member(Member(body, "message"), "data");
            Truthy(Member(body, "message")) && (!Truthy(data) || decode(data).Blank?) ==> r == Refuse(400)
    ensures var data := Member(Member(body, "message"), "data");
            Truthy(Member(body, "message")) && Truthy(data) && decode(data).Failed? ==> r == Refuse(500)
    ensures var data := Member(Member(body, "message"), "data");
            Truthy(Member(body, "message")) && Truthy(data) && decode(data).Parsed? ==>
              var messageData := decode(data).value;
              var productId := Member(Member(messageData, "resource"), "id");
              && (Member(messageData, "notificationType") != Str("ResourceCreated") ==> r == Refuse(200))
              && ((Member(messageData, "notificationType") == Str("ResourceCreated")
                   && Member(messageData, "type") != Str("ProductVariantAdded")) ==> r == Refuse(400))
              && ((Member(messageData, "notificationType") == Str("ResourceCreated")
                   && Member(messageData, "type") == Str("ProductVariantAdded")) ==>
                    r == if Truthy(productId) then Admit(productId) else Refuse(400))
  {
    var message := Member(body, "message");
    if !Truthy(message) then Refuse(400)
    else
      var data := Member(message, "data");
      var decoded := if Truthy(data) then decode(data) else Blank;
      match decoded
      case Blank => Refuse(400)
      case Failed(_) => Refuse(500)
      case Parsed(messageData) =>
        if Member(messageData, "notificationType") != Str("ResourceCreated") then Refuse(200)
        else if Member(messageData, "type") != Str("ProductVariantAdded") then Refuse(400)
        else
          var productId := Member(Member(messageData, "resource"), "id");
          if !Truthy(productId) then Refuse(400) else Admit(productId)
  }

  /** `productData?.masterData?.current?.name['en-GB']`: the chain stops at a
      missing product, master data or current projection, but a missing `name`
      map throws. */
  function ProductName(product: Value): (r: Result<Value>)
    ensures var current := Member(Member(product, "masterData"), "current");
            r.Err? <==> !Nullish(current) && Nullish(Member(current, "name"))
    ensures r.Ok? ==> r.value == Member(Member(Member(Member(product, "masterData"), "current"), "name"), "en-GB")
  {
    var current := Member(Member(product, "masterData"), "current");
    if Nullish(current) then Ok(Undefined) else Access(Member(current, "name"), "en-GB")
  }

  /** `productData?.productType?.id`. */
  function ProductTypeId(product: Value): Value {
    Member(Member(product, "productType"), "id")
  }

  function ImageUrl(product: Value): Value {
    var current := Member(Member(product, "masterData"), "current");
    Member(First(Member(Member(current, "masterVariant"), "images")), "url")
  }

  /** The staged master variant's attributes, or an empty array when missing or falsy. */
  function Attributes(product: Value): Value {
    var staged := Member(Member(Member(Member(product, "masterData"), "staged"), "masterVariant"), "attributes");
    if Truthy(staged) then staged else Arr([])
  }

  /** The element's `name` is the given one. */
  predicate Named(v: Value, name: string) {
    Member(v, "name") == Str(name)
  }

  /** No element from `from` up to `to` stops the search: none is null or
      undefined, and none has the name. */
  ghost predicate Passed(items: seq<Value>, from: nat, to: nat, name: string)
    requires from <= to <= |items|
  {
    forall j :: from <= j < to ==> !Nullish(items[j]) && !Named(items[j], name)
  }

  /** `attributes.find(attr => attr.name === name)`: only arrays have `find`;
      the search goes through the elements in order, and reading `name` of a
      null or undefined element throws. So the first element that is named,
      or is null or undefined, decides: the named one is found, the other
      throws, and with neither the result is undefined. */
  function FindByName(attributes: Value, name: string): (r: Result<Value>)
    ensures !attributes.Arr? ==> r.Err?
    ensures attributes.Arr? ==>
              forall i :: (0 <= i < |attributes.items| && Named(attributes.items[i], name)
                           && Passed(attributes.items, 0, i, name)) ==> r == Ok(attributes.items[i])
    ensures attributes.Arr? ==>
              (r.Err? <==> exists i :: 0 <= i < |attributes.items| && Nullish(attributes.items[i])
                                      && Passed(attributes.items, 0, i, name))
    ensures attributes.Arr? ==> (r == Ok(Undefined) <==> Passed(attributes.items, 0, |attributes.items|, name))
    ensures r.Ok? && r.value != Undefined ==> attributes.Arr? && r.value in attributes.items && Named(r.value, name)
  {
    if attributes.Arr? then
      FindFromFirst(attributes.items, 0, name);
      FindFrom(attributes.items, 0, name)
    else Err(Error("TypeError: attributes.find is not a function"))
  }

  function FindFrom(items: seq<Value>, from: nat, name: string): (r: Result<Value>)
    requires from <= |items|
    ensures r.Ok? && r.value != Undefined ==> r.value in items[from..] && Named(r.value, name)
    decreases |items| - from
  {
    if from == |items| then Ok(Undefined)
    else
      match Access(items[from], "name")
      case Err(e) => Err(e)
      case Ok(n) => if n == Str(name) then Ok(items[from]) else FindFrom(items, from + 1, name)
  }

  /** The search from `from` stops at the first element that is named or null
      or undefined. */
  lemma {:induction false} FindFromFirst(items: seq<Value>, from: nat, name: string)
    requires from <= |items|
    ensures forall i :: from <= i < |items| && Named(items[i], name) && Passed(items, from, i, name) ==>
              FindFrom(items, from, name) == Ok(items[i])
    ensures FindFrom(items, from, name).Err? <==>
              exists i :: from <= i < |items| && Nullish(items[i]) && Passed(items, from, i, name)
    ensures FindFrom(items, from, name) == Ok(Undefined) <==> Passed(items, from, |items|, name)
    decreases |items| - from
  {
    if from < |items| {
      FindFromFirst(items, from + 1, name);
      var head := items[from];
      if Nullish(head) {
        assert Passed(items, from, from, name);
      } else if Named(head, name) {
        forall i | from < i < |items| ensures !Passed(items, from, i, name) {
          assert !(!Nullish(items[from]) && !Named(items[from], name));
        }
      } else {
        forall i | from + 1 <= i <= |items| ensures Passed(items, from, i, name) <==> Passed(items, from + 1, i, name) {
        }
      }
    }
  }

  /** The product-level checks, once the product is fetched. */
  datatype Inspection = Decline(status: int) | Eligible(productType: Value, productName: Value, imageUrl: Value)

  /** The product has a type, an en-GB name and a first image URL, all truthy. */
  predicate Complete(product: Value) {
    ProductName(product).Ok? && Truthy(ProductTypeId(product)) && Truthy(ProductName(product).value)
    && Truthy(ImageUrl(product))
  }

  /** The product-level checks, in order: a name lookup that throws is a 500;
      a missing type, en-GB name or image URL is a 400; missing or empty staged
      attributes are a 400; a `find` that throws is a 500; a missing or falsy
      `generateDescription` flag is a 200. A product that passes them all is
      eligible, with its type, name and image URL. */
  function Inspect(product: Value): (r: Inspection)
    ensures r.Decline? ==> r.status in {200, 400, 500}
    ensures r.Eligible? ==> Truthy(r.productType) && Truthy(r.productName) && Truthy(r.imageUrl)
    ensures r.Eligible? ==> r.productName == Member(Member(Member(Member(product, "masterData"), "current"), "name"), "en-GB")
    ensures var current := Member(Member(product, "masterData"), "current");
            !Nullish(current) && Nullish(Member(current, "name")) ==> r == Decline(500)
    ensures ProductName(product).Ok? && !Complete(product) ==> r == Decline(400)
    ensures Complete(product) && !Truthy(Member(Attributes(product), "length")) ==> r == Decline(400)
    ensures Complete(product) && Truthy(Member(Attributes(product), "length")) ==>
              var flag := FindByName(Attributes(product), GenerateDescription);
              && (flag.Err? ==> r == Decline(500))
              && (flag.Ok? && !(Truthy(flag.value) && Truthy(Member(flag.value, "value"))) ==> r == Decline(200))
              && (flag.Ok? && Truthy(flag.value) && Truthy(Member(flag.value, "value")) ==>
                    r == Eligible(ProductTypeId(product), ProductName(product).value, ImageUrl(product)))
  {
    var productType := ProductTypeId(product);
    match ProductName(product)
    case Err(_) => Decline(500)
    case Ok(productName) =>
      var imageUrl := ImageUrl(product);
      if !Truthy(productType) || !Truthy(productName) || !Truthy(imageUrl) then Decline(400)
      else
        var attributes := Attributes(product);
        if !Truthy(Member(attributes, "length")) then Decline(400)
        else
          match FindByName(attributes, GenerateDescription)
          case Err(_) => Decline(500)
          case Ok(flag) =>
            if !Truthy(flag) || !Truthy(Member(flag, "value")) then Decline(200)
            else Eligible(productType, productName, imageUrl)
  }

  /** What the handler knows once the message is acknowledged. */
  datatype Context = Context(productId: Value, productName: Value, imageUrl: Value, productTypeKey: Value)

  function AskCalls(requests: seq<Request>): (r: seq<Event>)
    ensures |r| == |requests| && forall i :: 0 <= i < |requests| ==> r[i] == Called(Ask(requests[i]))
  {
    seq(|requests|, i requires 0 <= i < |requests| => Called(Ask(requests[i])))
  }

  /** The text handed on as the generated description; an undefined text prints as "undefined". */
  function DescriptionText(text: Option<string>): string {
    if text.Some? then text.value else "undefined"
  }

  /** The two record writes, once the translations are in. */
  function Persist(ctx: Context, env: Collaborators, translations: map<string, string>)
    : seq<Event>
  {
    [Called(CreateRecord(ctx.productId, ctx.imageUrl, ctx.productName, ctx.productTypeKey))]
    + match env.createRecord(ctx.productId, ctx.imageUrl, ctx.productName, ctx.productTypeKey)
      case Err(_) => [Sent(500)]
      case Ok(_) =>
        [Called(UpdateRecord(ctx.productId, ctx.productName, ctx.imageUrl, translations, ctx.productTypeKey))]
        + match env.updateRecord(ctx.productId, ctx.productName, ctx.imageUrl, translations, ctx.productTypeKey)
          case Err(_) => [Sent(500)]
          case Ok(_) => []
  }

  /** The work after the acknowledgement; any failure ends it with a 500. */
  function Enrich(ctx: Context, env: Collaborators): seq<Event> {
    [Called(AnalyzeImage(ctx.imageUrl))]
    + match env.analyzeImage(ctx.imageUrl)
      case Err(_) => [Sent(500)]
      case Ok(image) => Generate(ctx, env, image)
  }

  function Generate(ctx: Context, env: Collaborators, image: ImageData): seq<Event> {
    [Called(Ask(DescribeProduct(image, ctx.productName, ctx.productTypeKey)))]
    + match GenerateProductDescription(image, ctx.productName, ctx.productTypeKey, env.model)
      case Err(_) => [Sent(500)]
      case Ok(text) => Translate(ctx, env, DescriptionText(text))
  }

  function Translate(ctx: Context, env: Collaborators, description: string): seq<Event> {
    AskCalls(Asked(Locales, description, env.model))
    + match Translations(Locales, description, env.model)
      case Err(_) => [Sent(500)]
      case Ok(translations) => Persist(ctx, env, translations)
  }

  /** The whole handler. */
  function Handle(body: Value, env: Collaborators): seq<Event> {
    match Screen(body, env.decode)
    case Refuse(status) => [Sent(status)]
    case Admit(productId) => Examine(productId, env)
  }

  /** From fetching the product to the end. */
  function Examine(productId: Value, env: Collaborators): seq<Event> {
    [Called(FetchProduct(productId))]
    + match env.fetchProduct(productId)
      case Err(_) => [Sent(500)]
      case Ok(product) =>
        match Inspect(product)
        case Decline(status) => [Sent(status)]
        case Eligible(productType, productName, imageUrl) =>
          Acknowledge(productId, productType, productName, imageUrl, env)
  }

  /** From looking up the product type's key to the end. */
  function Acknowledge(productId: Value, productType: Value, productName: Value, imageUrl: Value,
                       env: Collaborators): seq<Event>
  {
    var productTypeKey := env.fetchProductType(productType);
    [Called(FetchProductType(productType))]
    + if !Truthy(productTypeKey) then [Sent(500)]
      else [Sent(200)] + Enrich(Context(productId, productName, imageUrl, productTypeKey), env)
  }

  /** The response and the collaborators, as seen from the handler: every status
      sent and every call made, in order. */
  class Trace {
    var events: seq<Event>

    constructor()
      ensures events == []
    {
      events := [];
    }

    method Send(status: int)
      modifies this
      ensures events == old(events) + [Sent(status)]
    {
      events := events + [Sent(status)];
    }

    method Invoke(call: Call)
      modifies this
      ensures events == old(events) + [Called(call)]
    {
      events := events + [Called(call)];
    }

    method InvokeAll(requests: seq<Request>)
      modifies this
      ensures events == old(events) + AskCalls(requests)
    {
      events := events + AskCalls(requests);
    }
  }

  lemma Associative(a: seq<Event>, b: seq<Event>, c: seq<Event>)
    ensures a + b + c == a + (b + c)
  {
  }

  /** `post`, step by step. */
  method Post(body: Value, env: Collaborators, trace: Trace)
    modifies trace
    ensures trace.events == old(trace.events) + Handle(body, env)
  {
    var pubSubMessage := Member(body, "message");
    if !Truthy(pubSubMessage) {
      trace.Send(400);
      return;
    }
    var data := Member(pubSubMessage, "data");
    var decodedData := if Truthy(data) then env.decode(data) else Blank;
    if decodedData.Blank? {
      trace.Send(400);
      return;
    }
    if decodedData.Failed? {
      trace.Send(500);
      return;
    }
    var messageData := decodedData.value;
    if Member(messageData, "notificationType") != Str("ResourceCreated") {
      trace.Send(200);
      return;
    }
    if Member(messageData, "type") != Str("ProductVariantAdded") {
      trace.Send(400);
      return;
    }
    var productId := Member(Member(messageData, "resource"), "id");
    if !Truthy(productId) {
      trace.Send(400);
      return;
    }
    FetchAndCheck(productId, env, trace);
  }

  /** `post` from fetching the product up to the acknowledgement, then the rest. */
  method FetchAndCheck(productId: Value, env: Collaborators, trace: Trace)
    modifies trace
    ensures trace.events == old(trace.events) + Examine(productId, env)
  {
    trace.Invoke(FetchProduct(productId));
    var fetched := env.fetchProduct(productId);
    if fetched.Err? {
      trace.Send(500);
      Associative(old(trace.events), [Called(FetchProduct(productId))], [Sent(500)]);
      return;
    }
    var verdict := Inspect(fetched.value);
    match verdict {
      case Decline(status) =>
        trace.Send(status);
        Associative(old(trace.events), [Called(FetchProduct(productId))], [Sent(status)]);
      case Eligible(productType, productName, imageUrl) =>
        ghost var rest := Acknowledge(productId, productType, productName, imageUrl, env);
        AcknowledgeAndProcess(productId, productType, productName, imageUrl, env, trace);
        Associative(old(trace.events), [Called(FetchProduct(productId))], rest);
    }
  }

  /** `post` from looking up the product type's key: the acknowledgement, then the work. */
  method AcknowledgeAndProcess(productId: Value, productType: Value, productName: Value, imageUrl: Value,
                               env: Collaborators, trace: Trace)
    modifies trace
    ensures trace.events == old(trace.events) + Acknowledge(productId, productType, productName, imageUrl, env)
  {
    trace.Invoke(FetchProductType(productType));
    var productTypeKey := env.fetchProductType(productType);
    if !Truthy(productTypeKey) {
      trace.Send(500);
      return;
    }
    ghost var afterCall := trace.events;
    trace.Send(200);
    var ctx := Context(productId, productName, imageUrl, productTypeKey);
    Process(ctx, env, trace);
    Associative(afterCall, [Sent(200)], Enrich(ctx, env));
    Associative(old(trace.events), [Called(FetchProductType(productType))], [Sent(200)] + Enrich(ctx, env));
  }

  /** The part of `post` after the acknowledgement: analysing the image. */
  method Process(ctx: Context, env: Collaborators, trace: Trace)
    modifies trace
    ensures trace.events == old(trace.events) + Enrich(ctx, env)
  {
    trace.Invoke(AnalyzeImage(ctx.imageUrl));
    var imageData := env.analyzeImage(ctx.imageUrl);
    if imageData.Err? {
      trace.Send(500);
      return;
    }
    Describe(ctx, env, imageData.value, trace);
    Associative(old(trace.events), [Called(AnalyzeImage(ctx.imageUrl))], Generate(ctx, env, imageData.value));
  }

  /** Generating the description. */
  method Describe(ctx: Context, env: Collaborators, image: ImageData, trace: Trace)
    modifies trace
    ensures trace.events == old(trace.events) + Generate(ctx, env, image)
  {
    var request := DescribeProduct(image, ctx.productName, ctx.productTypeKey);
    trace.Invoke(Ask(request));
    var generatedDescription := GenerateProductDescription(image, ctx.productName, ctx.productTypeKey, env.model);
    if generatedDescription.Err? {
      trace.Send(500);
      return;
    }
    TranslateAndStore(ctx, env, DescriptionText(generatedDescription.value), trace);
    Associative(old(trace.events), [Called(Ask(request))],
                Translate(ctx, env, DescriptionText(generatedDescription.value)));
  }

  /** Translating the description. */
  method TranslateAndStore(ctx: Context, env: Collaborators, description: string,
                           trace: Trace)
    modifies trace
    ensures trace.events == old(trace.events) + Translate(ctx, env, description)
  {
    var translations, asked := TranslateProductDescription(description, env.model);
    trace.InvokeAll(asked);
    if translations.Err? {
      trace.Send(500);
      return;
    }
    Store(ctx, env, translations.value, trace);
    Associative(old(trace.events), AskCalls(asked), Persist(ctx, env, translations.value));
  }

  /** Creating, then updating, the staging record. */
  method Store(ctx: Context, env: Collaborators, translations: map<string, string>,
               trace: Trace)
    modifies trace
    ensures trace.events == old(trace.events) + Persist(ctx, env, translations)
  {
    trace.Invoke(CreateRecord(ctx.productId, ctx.imageUrl, ctx.productName, ctx.productTypeKey));
    var created := env.createRecord(ctx.productId, ctx.imageUrl, ctx.productName, ctx.productTypeKey);
    if created.Err? {
      trace.Send(500);
      return;
    }
    trace.Invoke(UpdateRecord(ctx.productId, ctx.productName, ctx.imageUrl, translations, ctx.productTypeKey));
    var updated := env.updateRecord(ctx.productId, ctx.productName, ctx.imageUrl, translations, ctx.productTypeKey);
    if updated.Err? {
      trace.Send(500);
    }
  }
}
