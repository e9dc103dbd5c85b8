/** The prompt texts the services send to the generative model: the product
    description prompt and the translation prompt, and what each carries. */
module Prompts {
  import opened Js
  import opened GenerativeModel

  /** The text a request is sent as. */
  function Rendered(request: Request): string {
    match request
    case DescribeProduct(image, productName, productTypeKey) => DescriptionPrompt(image, ToStr(productName), ToStr(productTypeKey))
    case TranslateInto(locale, description) => TranslationPrompt(locale, description)
  }

  // The fixed text of the prompt, between the interpolated values.
  const TypeText := "Generate a persuasive, SEO-optimized product description (under 150 words) for a product type : "
  const NameText := ", based on the following data:\n\n        **Product Name:** "
  const InsightsText := "\n\n        **Image Insights:**\n        "
  const Margin := "        "
  const RequirementsText := "\n        **Requirements:**\n"
    + "        1. Write a compelling introduction that immediately captures attention.\n"
    + "        2. Clearly define the product, emphasizing material, design, and standout features.\n"
    + "        3. Explain functionality, benefits, and ideal use cases.\n"
    + "        4. Mention available variations (colors, sizes) if applicable.\n"
    + "        5. Ensure SEO-friendly, natural language without keyword stuffing.\n"
    + "        6. Avoid any inappropriate, offensive, misleading, or exaggerated claims.\n"
    + "        7. End with a strong, persuasive call to action (e.g., \"Upgrade your experience today!\").\n\n"
    + "        **Key Features:**  \n"
    + "        - Bullet-point summary of essential attributes.\n\n"
    + "        Return only the polished description text with a professional, engaging, and customer-friendly tone."

  const ColorSeparator := ", "

  function Quoted(s: string): string {
    "\"" + s + "\""
  }

  /** One "- Heading: value" line of the insight list, with the margin of the next line. */
  function Line(heading: string, value: string): string {
    heading + value + "\n" + Margin
  }

  function DescriptionPrompt(image: ImageData, productName: string, productTypeKey: string): string {
    TypeText + (Quoted(productTypeKey) + (NameText + (Quoted(productName) + (InsightsText + Insights(image)))))
  }

  function Insights(image: ImageData): string {
    Line("- Labels: ", image.labels)
    + (Line("- Objects: ", image.objects)
    + (Line("- Colors: ", Join(image.colors, ColorSeparator))
    + (Line("- Detected Text: ", image.detectedText)
    + ("- Web Entities: " + image.webEntities + "\n" + RequirementsText))))
  }

  // The fixed text of the translation prompt, around the locale and the description.
  const IntoText := "Translate the following product description into "
  const OriginalText := ". \n            \n            **Original Text (English)**: "
  const GuidelinesText := "\n\n            **Translation Guidelines**:\n"
    + "            - Maintain the tone and style of the original description.\n"
    + "            - Ensure the text is fluent and sounds natural in "
  const ClosingText := ".\n            - Adapt cultural nuances if necessary.\n"
    + "            - Optimize for SEO where applicable.\n\n"
    + "            Return the translated text without additional comments."

  function TranslationPrompt(locale: string, description: string): string {
    IntoText + (locale + (OriginalText + (description + (GuidelinesText + (locale + ClosingText)))))
  }

  lemma InfixHead(x: string, b: string)
    ensures IsInfix(x, x + b)
  {
    assert OccursAt(x, x + b, 0);
  }

  lemma InfixTail(x: string, a: string, s: string)
    requires IsInfix(x, s)
    ensures IsInfix(x, a + s)
  {
    InfixGrow(x, s, a, "");
    assert a + s + "" == a + s;
  }

  lemma LineCarries(heading: string, value: string, rest: string)
    ensures IsInfix(heading + value + "\n", Line(heading, value) + rest)
  {
    InfixHead(heading + value + "\n", Margin + rest);
    assert heading + value + "\n" + (Margin + rest) == Line(heading, value) + rest;
  }

  /** The insight list carries labels, objects, the colours joined with ", ",
      detected text and web entities, each on its own headed line. */
  lemma InsightsCarry(image: ImageData)
    ensures IsInfix("- Labels: " + image.labels + "\n", Insights(image))
    ensures IsInfix("- Objects: " + image.objects + "\n", Insights(image))
    ensures IsInfix("- Colors: " + Join(image.colors, ", ") + "\n", Insights(image))
    ensures IsInfix("- Detected Text: " + image.detectedText + "\n", Insights(image))
    ensures IsInfix("- Web Entities: " + image.webEntities + "\n", Insights(image))
  {
    var r4 := "- Web Entities: " + image.webEntities + "\n" + RequirementsText;
    var r3 := Line("- Detected Text: ", image.detectedText) + r4;
    var r2 := Line("- Colors: ", Join(image.colors, ColorSeparator)) + r3;
    var r1 := Line("- Objects: ", image.objects) + r2;
    assert Insights(image) == Line("- Labels: ", image.labels) + r1;
    LineCarries("- Labels: ", image.labels, r1);
    LineCarries("- Objects: ", image.objects, r2);
    InfixTail("- Objects: " + image.objects + "\n", Line("- Labels: ", image.labels), r1);
    LineCarries("- Colors: ", Join(image.colors, ColorSeparator), r3);
    InfixTail("- Colors: " + Join(image.colors, ", ") + "\n", Line("- Objects: ", image.objects), r2);
    InfixTail("- Colors: " + Join(image.colors, ", ") + "\n", Line("- Labels: ", image.labels), r1);
    LineCarries("- Detected Text: ", image.detectedText, r4);
    var dt := "- Detected Text: " + image.detectedText + "\n";
    InfixTail(dt, Line("- Colors: ", Join(image.colors, ColorSeparator)), r3);
    InfixTail(dt, Line("- Objects: ", image.objects), r2);
    InfixTail(dt, Line("- Labels: ", image.labels), r1);
    var we := "- Web Entities: " + image.webEntities + "\n";
    InfixHead(we, RequirementsText);
    InfixTail(we, Line("- Detected Text: ", image.detectedText), r4);
    InfixTail(we, Line("- Colors: ", Join(image.colors, ColorSeparator)), r3);
    InfixTail(we, Line("- Objects: ", image.objects), r2);
    InfixTail(we, Line("- Labels: ", image.labels), r1);
  }

  /** Whatever the insight list carries, the prompt carries. */
  lemma PromptContainsInsights(x: string, image: ImageData, productName: string, productTypeKey: string)
    requires IsInfix(x, Insights(image))
    ensures IsInfix(x, DescriptionPrompt(image, productName, productTypeKey))
  {
    var s4 := InsightsText + Insights(image);
    var s3 := Quoted(productName) + s4;
    var s2 := NameText + s3;
    var s1 := Quoted(productTypeKey) + s2;
    InfixTail(x, InsightsText, Insights(image));
    InfixTail(x, Quoted(productName), s4);
    InfixTail(x, NameText, s3);
    InfixTail(x, Quoted(productTypeKey), s2);
    InfixTail(x, TypeText, s1);
  }

  /** The prompt quotes the product type key and the product name. */
  lemma PromptQuotesInputs(image: ImageData, productName: string, productTypeKey: string)
    ensures IsInfix(Quoted(productTypeKey), DescriptionPrompt(image, productName, productTypeKey))
    ensures IsInfix(Quoted(productName), DescriptionPrompt(image, productName, productTypeKey))
  {
    var s4 := InsightsText + Insights(image);
    var s3 := Quoted(productName) + s4;
    var s2 := NameText + s3;
    var s1 := Quoted(productTypeKey) + s2;
    InfixHead(Quoted(productTypeKey), s2);
    InfixTail(Quoted(productTypeKey), TypeText, s1);
    InfixHead(Quoted(productName), s4);
    InfixTail(Quoted(productName), NameText, s3);
    InfixTail(Quoted(productName), Quoted(productTypeKey), s2);
    InfixTail(Quoted(productName), TypeText, s1);
  }

  /** The prompt carries every insight line. */
  lemma PromptCarriesInsights(image: ImageData, productName: string, productTypeKey: string)
    ensures IsInfix("- Labels: " + image.labels + "\n", DescriptionPrompt(image, productName, productTypeKey))
    ensures IsInfix("- Objects: " + image.objects + "\n", DescriptionPrompt(image, productName, productTypeKey))
    ensures IsInfix("- Colors: " + Join(image.colors, ", ") + "\n", DescriptionPrompt(image, productName, productTypeKey))
    ensures IsInfix("- Detected Text: " + image.detectedText + "\n", DescriptionPrompt(image, productName, productTypeKey))
    ensures IsInfix("- Web Entities: " + image.webEntities + "\n", DescriptionPrompt(image, productName, productTypeKey))
  {
    InsightsCarry(image);
    PromptContainsInsights("- Labels: " + image.labels + "\n", image, productName, productTypeKey);
    PromptContainsInsights("- Objects: " + image.objects + "\n", image, productName, productTypeKey);
    PromptContainsInsights("- Colors: " + Join(image.colors, ", ") + "\n", image, productName, productTypeKey);
    PromptContainsInsights("- Detected Text: " + image.detectedText + "\n", image, productName, productTypeKey);
    PromptContainsInsights("- Web Entities: " + image.webEntities + "\n", image, productName, productTypeKey);
  }

  /** A text that carries the colour line carries each colour. */
  lemma ColourLineCarriesEach(colors: seq<string>, k: nat, s: string)
    requires k < |colors|
    requires IsInfix("- Colors: " + Join(colors, ", ") + "\n", s)
    ensures IsInfix(colors[k], s)
  {
    JoinContainsEach(colors, ", ", k);
    InfixGrow(colors[k], Join(colors, ", "), "- Colors: ", "\n");
    InfixTransitive(colors[k], "- Colors: " + Join(colors, ", ") + "\n", s);
  }

  /** Each colour the image analysis found appears in the prompt. */
  lemma PromptCarriesColour(image: ImageData, productName: string, productTypeKey: string, k: nat)
    requires k < |image.colors|
    ensures IsInfix(image.colors[k], DescriptionPrompt(image, productName, productTypeKey))
  {
    var line := "- Colors: " + Join(image.colors, ", ") + "\n";
    InsightsCarry(image);
    PromptContainsInsights(line, image, productName, productTypeKey);
    ColourLineCarriesEach(image.colors, k, DescriptionPrompt(image, productName, productTypeKey));
  }

  /** Every translation prompt names its locale and carries the description unchanged. */
  lemma PromptNamesLocaleAndText(locale: string, description: string)
    ensures IsInfix(locale, TranslationPrompt(locale, description))
    ensures IsInfix(description, TranslationPrompt(locale, description))
  {
    var s3 := description + (GuidelinesText + (locale + ClosingText));
    var s2 := OriginalText + s3;
    var s1 := locale + s2;
    InfixHead(locale, s2);
    InfixTail(locale, IntoText, s1);
    InfixHead(description, GuidelinesText + (locale + ClosingText));
    InfixTail(description, OriginalText, s3);
    InfixTail(description, locale, s2);
    InfixTail(description, IntoText, s1);
  }

  /** The text of a description request quotes the product name and type key. */
  lemma RenderedDescribes(request: Request)
    requires request.DescribeProduct?
    ensures IsInfix(Quoted(ToStr(request.productName)), Rendered(request))
    ensures IsInfix(Quoted(ToStr(request.productTypeKey)), Rendered(request))
  {
    PromptQuotesInputs(request.image, ToStr(request.productName), ToStr(request.productTypeKey));
  }

  /** The text of a translation request names the locale and carries the description. */
  lemma RenderedTranslates(request: Request)
    requires request.TranslateInto?
    ensures IsInfix(request.locale, Rendered(request)) && IsInfix(request.description, Rendered(request))
  {
    PromptNamesLocaleAndText(request.locale, request.description);
  }
}
