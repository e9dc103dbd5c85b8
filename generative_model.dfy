/** The generative model's `generateContent(prompt)` as the services see it. The
    model itself is outside this project: a `Model` is any function from the
    request to what the awaited call gave back. A request stands for the prompt
    text it renders to (`Prompts.Rendered`), so a model of the text is a model of
    the request. */
module GenerativeModel {
  import opened Js

  /** What the image analysis hands on: flattened descriptions and a colour list. */
  datatype ImageData = ImageData(
    labels: string,
    objects: string,
    colors: seq<string>,
    detectedText: string,
    webEntities: string)

  /** The two kinds of prompt the services send. The description request carries
      the product name and type key as the caller passed them; the prompt's
      template converts them to text. */
  datatype Request =
    | DescribeProduct(image: ImageData, productName: Value, productTypeKey: Value)
    | TranslateInto(locale: string, description: string)

  datatype Reply =
    | Threw(error: Error)          // the awaited call rejected
    | NoResponse                   // `result` or `result.response` is null or undefined
    | Replied(text: Option<string>) // what `result.response.text()` gave; None is undefined

  type Model = Request -> Reply
}
