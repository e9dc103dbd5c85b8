/** `generateProductDescription`: one model request for the product's
    description prompt, and a check that a response came back. */
module Description {
  import opened Js
  import opened GenerativeModel

  const NullResponse := Error("Generative AI response is null or undefined.")

  /** The service, for a model that answers the one prompt it is sent. A missing
      response is the only reply it rejects itself; a rejection from the model
      is passed on unchanged, and any text, even an empty one, is returned as
      it came (None: `text()` gave undefined). */
  function GenerateProductDescription(image: ImageData, productName: Value, productTypeKey: Value, model: Model)
    : (r: Result<Option<string>>)
    ensures r.Ok? <==> model(DescribeProduct(image, productName, productTypeKey)).Replied?
    ensures r.Ok? ==> model(DescribeProduct(image, productName, productTypeKey)) == Replied(r.value)
    ensures r.Err? ==>
              (r.error == NullResponse || model(DescribeProduct(image, productName, productTypeKey)) == Threw(r.error))
    ensures model(DescribeProduct(image, productName, productTypeKey)) == NoResponse ==> r == Err(NullResponse)
    ensures model(DescribeProduct(image, productName, productTypeKey)).Threw? ==>
              r == Err(model(DescribeProduct(image, productName, productTypeKey)).error)
  {
    match model(DescribeProduct(image, productName, productTypeKey))
    case Threw(e) => Err(e)
    case NoResponse => Err(NullResponse)
    case Replied(text) => Ok(text)
  }
}
