# PixelPhraser connector core, in Dafny

PixelPhraser is a commercetools connector. It writes product descriptions with
a generative model. Two parts are modelled here.

The event service:
- receives a Pub/Sub push message when a product variant is added;
- fetches the product and checks that it asks for a generated description;
- acknowledges the message with a 200;
- analyses the product image;
- asks the model for an English description, then for three translations
  (en-GB, en-US, de-DE);
- stores the result in a `temporaryDescription` custom object, in two steps:
  a placeholder create, then an update that holds the translations.

The admin panel (Merchant Center custom application) keeps the list of
languages a merchant selected.

The modules follow the repository's files:

| module | file |
|---|---|
| `Js` | JavaScript values, truthiness, `?.`, plain property reads, `String(v)` and `join` |
| `GenerativeModel` | the model as the services see it: a structured request in, a reply out |
| `Prompts` | the two prompt texts and what each one carries |
| `Description` | `generateProductDescription` |
| `Translation` | `translateProductDescription`: the locale loop and its all-or-nothing result |
| `CustomObjects` | the versioned custom-object store (a class), `createProductCustomObject` and `updateCustomObjectWithDescription` |
| `SelectedLanguages` | `fetchselectedLanguages` and its normalisation of the stored value |
| `EventController` | the handler `post` |
| `Traces` | reading a handler trace: statuses sent, pipeline stage of each call |
| `ControllerProperties` | what the handler promises, proved stage by stage |
| `ControllerGates` | which check gives which answer, and that each stage runs only after the earlier ones succeeded |
| `LanguagesConfigured` | the panel's state fields and handlers (a class) |

## How the handler is modelled

`post` becomes a method that appends events to a `Trace` object. An event is
either a call to a collaborator or a status sent on the response.

Each collaborator is a field of `Collaborators`, given as a function. So the
handler's behaviour is a function of the message and of what the
collaborators answer. `EventController.Handle` is that function. It is split
into per-stage functions: `Examine`, `Acknowledge`, `Enrich`, `Generate`,
`Translate` and `Persist`.

Each stage of the method (`Post`, `FetchAndCheck`, `AcknowledgeAndProcess`,
`Process`, `Describe`, `TranslateAndStore`, `Store`) is proved to append
exactly its stage function's events. The promises about the handler are then
lemmas about `Handle`, in `ControllerProperties`:
- the statuses it sends;
- the order of its calls;
- what an update carries.

`ControllerGates` then states each check of the handler on its own: the
answer it gives and the calls made before it. It also proves that every
stage runs only after the stages before it succeeded.

A catch-all turns any thrown error into a 500. That 500 ends the trace at the
stage that failed. When the failure comes after the acknowledgement, the
trace records both statuses, [200, 500].

## Model

| member | source | states |
|---|---|---|
| Js.Member | event-pixelphraser/src/controllers/event.controller.ts:67-69 | optional chaining on null or undefined gives undefined |
| Js.Access | event-pixelphraser/src/controllers/event.controller.ts:68 | a plain property read throws exactly when the base is null or undefined; otherwise it reads what `?.` reads |
| Js.First | event-pixelphraser/src/controllers/event.controller.ts:69 | `?.[0]` of an array is its first element, or undefined when the array is empty |
| Js.JoinContainsEach | event-pixelphraser/src/services/generative-ai/descriptionGeneration.service.ts:15 | every colour shows up in the joined colour list |
| Js.JoinLength | event-pixelphraser/src/services/generative-ai/descriptionGeneration.service.ts:15 | the joined list is the colours plus exactly one separator between each neighbouring pair |
| Prompts.PromptQuotesInputs | event-pixelphraser/src/services/generative-ai/descriptionGeneration.service.ts:9-11 | the description prompt quotes the product type key and the product name |
| Prompts.InsightsCarry | event-pixelphraser/src/services/generative-ai/descriptionGeneration.service.ts:13-18 | the insight block has one headed line each for labels, objects, colours joined with ", ", detected text and web entities |
| Prompts.PromptContainsInsights | event-pixelphraser/src/services/generative-ai/descriptionGeneration.service.ts:9-32 | any text inside the insight block is inside the prompt |
| Prompts.PromptCarriesInsights | event-pixelphraser/src/services/generative-ai/descriptionGeneration.service.ts:13-18 | the prompt carries every insight line |
| Prompts.PromptCarriesColour | event-pixelphraser/src/services/generative-ai/descriptionGeneration.service.ts:15 | each colour found by the image analysis appears in the prompt |
| Prompts.PromptNamesLocaleAndText | event-pixelphraser/src/services/generative-ai/translateProductDescription.service.ts:11-21 | a translation prompt names its locale and holds the description unchanged |
| Prompts.RenderedDescribes | event-pixelphraser/src/services/generative-ai/descriptionGeneration.service.ts:9-11 | the text of any description request quotes the request's name and type key, as converted by the template |
| Prompts.RenderedTranslates | event-pixelphraser/src/services/generative-ai/translateProductDescription.service.ts:11-21 | the text of any translation request names its locale and holds its description |
| Description.GenerateProductDescription | event-pixelphraser/src/services/generative-ai/descriptionGeneration.service.ts:34-46 | one request is sent; it succeeds exactly when the model replied, returning the reply's text as it came (an empty text too); a missing response fails with "Generative AI response is null or undefined."; a rejection is passed on unchanged |
| Translation.TranslateOne | event-pixelphraser/src/services/generative-ai/translateProductDescription.service.ts:23-29 | one locale succeeds exactly when the reply holds a non-empty text, which it returns; a rejection passes on unchanged; a missing response, or an empty or undefined text, fails with "Translation to <locale> failed." |
| Translation.Requests | event-pixelphraser/src/services/generative-ai/translateProductDescription.service.ts:10-23 | one translation request per locale, in list order |
| Translation.AskedBounds | event-pixelphraser/src/services/generative-ai/translateProductDescription.service.ts:10-31 | at most one request per locale; a successful call asked every locale in order; a failed one asked at least one |
| Translation.TranslateProductDescription | event-pixelphraser/src/services/generative-ai/translateProductDescription.service.ts:4-38 | the loop returns the all-or-nothing dictionary; it asks the locales in order and stops at the first failure, whose error it passes on; on failure the last request sent is the failing locale's |
| Translation.FailureSticks | event-pixelphraser/src/services/generative-ai/translateProductDescription.service.ts:24-27 | once a locale fails, the later locales cannot change the outcome |
| Translation.FailsAt | event-pixelphraser/src/services/generative-ai/translateProductDescription.service.ts:24-37 | the first failing locale decides the error and is the last locale asked |
| Translation.TranslationsKeys | event-pixelphraser/src/services/generative-ai/translateProductDescription.service.ts:7-33 | on success the keys are exactly the locales asked; each holds the text the model gave for that locale's request |
| Translation.TranslationsAllOrNothing | event-pixelphraser/src/services/generative-ai/translateProductDescription.service.ts:10-37 | success exactly when every locale succeeds; a failure reports the error of the first failing locale, in list order |
| Translation.ServiceKeys | event-pixelphraser/src/services/generative-ai/translateProductDescription.service.ts:8 | the service's dictionary has exactly the keys en-GB, en-US and de-DE |
| CustomObjects.Store.Get | event-pixelphraser/src/repository/custom-object/updateCustomObjectWithDescription.ts:15-18 | a read is logged; it changes no object; it gives the stored object, none, or the transport error |
| CustomObjects.Store.Post | event-pixelphraser/src/repository/custom-object/updateCustomObjectWithDescription.ts:36-43 | a write is logged; a stale version is refused and the store is left unchanged; a write with no version, or with the stored version, stores the value under the next version and touches no other key |
| CustomObjects.NullSlots | event-pixelphraser/src/repository/custom-object/createCustomObject.repository.ts:16-19 | the fold gives one null slot per language, with repeats collapsed, and no other key |
| CustomObjects.WithMetadata | event-pixelphraser/src/repository/custom-object/createCustomObject.repository.ts:25-30 | the three metadata entries are added and override a slot of the same name; every other slot is kept |
| CustomObjects.PlaceholderShape | event-pixelphraser/src/repository/custom-object/createCustomObject.repository.ts:16-30 | the placeholder's keys are exactly the languages plus the metadata names; a language that is not a metadata name holds null; an empty list leaves only the metadata |
| CustomObjects.CreateProductCustomObject | event-pixelphraser/src/repository/custom-object/createCustomObject.repository.ts:4-41 | exactly one write, with no version, to ("temporaryDescription", productId), carrying the placeholder; a failure is passed on and changes nothing |
| CustomObjects.DescribedValue | event-pixelphraser/src/repository/custom-object/updateCustomObjectWithDescription.ts:28-34 | the translations plus imageUrl, productType, productName and generatedAt, where the metadata wins a key clash |
| CustomObjects.UpdateCustomObjectWithDescription | event-pixelphraser/src/repository/custom-object/updateCustomObjectWithDescription.ts:4-51 | it reads first; a failed read or a missing object ends with no write (the "not found" error names the product id); otherwise one write of the described value carrying the version just read; errors are passed on unchanged; only that one key changes |
| CustomObjects.CreateThenUpdate | event-pixelphraser/src/repository/custom-object/updateCustomObjectWithDescription.ts:15-43 | a successful create then update leaves the described value one version past the placeholder; the placeholder's null slots that nothing refilled are gone |
| SelectedLanguages.ObjectValues | event-pixelphraser/src/repository/custom-object/fetchSelectedLanguages.ts:19 | `Object.values` throws exactly on null or undefined; an object gives its values in entry order |
| SelectedLanguages.Stringify | event-pixelphraser/src/repository/custom-object/fetchSelectedLanguages.ts:19 | `.map(String)` keeps the length and converts each element |
| SelectedLanguages.Normalise | event-pixelphraser/src/repository/custom-object/fetchSelectedLanguages.ts:16-20 | an array passes unchanged; an object becomes its values converted to strings, in order; null or undefined throws; a result that did not come from an array holds only strings |
| SelectedLanguages.FetchSelectedLanguages | event-pixelphraser/src/repository/custom-object/fetchSelectedLanguages.ts:11-28 | it reads ("selectedLanguages", "pixelphraser"), passes a read failure on unchanged, and otherwise normalises the stored value |
| SelectedLanguages.NormaliseIdempotent | event-pixelphraser/src/repository/custom-object/fetchSelectedLanguages.ts:16-20 | normalising a normalised list changes nothing |
| EventController.Screen | event-pixelphraser/src/controllers/event.controller.ts:15-61 | the message checks in order: no message, or missing or blank data, is a 400; data that fails to decode or parse is a 500; a notification other than ResourceCreated is a 200; a type other than ProductVariantAdded is a 400; a falsy resource id is a 400; a message that passes goes on with its resource id |
| EventController.ProductName | event-pixelphraser/src/controllers/event.controller.ts:68 | reading the en-GB name throws exactly when the current projection exists and has no name map; otherwise it is the optional-chained value |
| EventController.FindByName | event-pixelphraser/src/controllers/event.controller.ts:85 | anything that is not an array throws; in an array the first element that is named `generateDescription` or is null or undefined decides: a named one is returned, a null or undefined one throws, and undefined comes back exactly when no element is either |
| EventController.FindFrom | event-pixelphraser/src/controllers/event.controller.ts:85 | a found element is one of the elements searched, with the name looked for |
| EventController.FindFromFirst | event-pixelphraser/src/controllers/event.controller.ts:85 | from any position, the search returns the first named element when no null or undefined element comes before it, throws exactly when a null or undefined element comes before any match, and gives undefined exactly when nothing stops it |
| EventController.Inspect | event-pixelphraser/src/controllers/event.controller.ts:66-90 | the product checks in order: a name lookup that throws is a 500; a missing type, en-GB name or image URL is a 400; missing or empty attributes are a 400; a `find` that throws is a 500; a missing or falsy flag is a 200; a product passing all of them is eligible with its type id, en-GB name and first image URL |
| EventController.Post | event-pixelphraser/src/controllers/event.controller.ts:12-131 | the handler appends exactly the events of `Handle`: every call and status, in order |
| EventController.FetchAndCheck | event-pixelphraser/src/controllers/event.controller.ts:63-90 | from the product fetch on, the handler appends exactly `Examine`'s events |
| EventController.AcknowledgeAndProcess | event-pixelphraser/src/controllers/event.controller.ts:92-102 | from the type-key lookup on, the handler appends exactly `Acknowledge`'s events |
| EventController.Process | event-pixelphraser/src/controllers/event.controller.ts:104-105 | from the image analysis on, the handler appends exactly `Enrich`'s events |
| EventController.Describe | event-pixelphraser/src/controllers/event.controller.ts:107-108 | from the description request on, the handler appends exactly `Generate`'s events |
| EventController.TranslateAndStore | event-pixelphraser/src/controllers/event.controller.ts:110-111 | the translation requests actually sent, then `Persist`'s events or a 500 |
| EventController.Store | event-pixelphraser/src/controllers/event.controller.ts:113-121 | the create, then the update only after a successful create, each failure ending in a 500 |
| Traces.AckedOrder | event-pixelphraser/src/controllers/event.controller.ts:101-105 | once the handler acknowledges, the 200 precedes all of the work |
| ControllerProperties.PersistStatuses | event-pixelphraser/src/controllers/event.controller.ts:113-130 | the writes send nothing when both succeed, and one 500 otherwise |
| ControllerProperties.PersistRanks | event-pixelphraser/src/controllers/event.controller.ts:113-121 | the create comes first; the update follows exactly when the create succeeded |
| ControllerProperties.PersistCreates | event-pixelphraser/src/controllers/event.controller.ts:114 | the create is always attempted, with the handler's product id, image URL, name and type key |
| ControllerProperties.PersistUpdates | event-pixelphraser/src/controllers/event.controller.ts:117-121 | the update, carrying the translations, is called exactly when the create succeeded |
| ControllerProperties.PersistCalls | event-pixelphraser/src/controllers/event.controller.ts:113-121 | the writes make no call but the create, and the update after a successful create |
| ControllerProperties.TranslateStatuses | event-pixelphraser/src/controllers/event.controller.ts:111-130 | a failed translation gives a 500 and no write; otherwise the writes decide |
| ControllerProperties.TranslateRanks | event-pixelphraser/src/controllers/event.controller.ts:110-121 | the translation requests come before the writes, in pipeline order |
| ControllerProperties.TranslateRanksDone | event-pixelphraser/src/controllers/event.controller.ts:110-121 | a successful translation made three requests and then the writes |
| ControllerProperties.TranslateCalls | event-pixelphraser/src/controllers/event.controller.ts:110-121 | the translation stage calls only the model, and the writes after a success |
| ControllerProperties.TranslateReaches | event-pixelphraser/src/controllers/event.controller.ts:110-121 | after a successful translation, every write is made |
| ControllerProperties.EnrichStatuses | event-pixelphraser/src/controllers/event.controller.ts:104-130 | after the acknowledgement, the first failing AI stage gives a 500; otherwise the writes decide |
| ControllerProperties.EnrichInOrder | event-pixelphraser/src/controllers/event.controller.ts:104-121 | after the acknowledgement, the calls follow the stage order analysis, generation, translation, create, update |
| ControllerProperties.GenerateInOrder | event-pixelphraser/src/controllers/event.controller.ts:107-121 | from the generation on, the calls follow the stage order |
| ControllerProperties.EnrichAnalyses | event-pixelphraser/src/controllers/event.controller.ts:105 | the acknowledged product's image is always analysed |
| ControllerProperties.EnrichCalls | event-pixelphraser/src/controllers/event.controller.ts:104-121 | after the acknowledgement, the only calls are the analysis, model requests, and the writes that the AI stages reached |
| ControllerProperties.GenerateCalls | event-pixelphraser/src/controllers/event.controller.ts:107-121 | from the generation on, the only calls are model requests and the writes the AI stages reached |
| ControllerProperties.EnrichReaches | event-pixelphraser/src/controllers/event.controller.ts:104-121 | when the AI stages succeed, every write is made |
| ControllerProperties.EnrichUpdate | event-pixelphraser/src/controllers/event.controller.ts:104-121 | an update happens only after successful AI stages and a successful create; it carries the handler's values and the translations produced |
| ControllerProperties.EnrichCreate | event-pixelphraser/src/controllers/event.controller.ts:104-114 | a create happens only after successful AI stages, with the handler's values |
| ControllerProperties.EnrichUpdateTexts | event-pixelphraser/src/controllers/event.controller.ts:111-121 | an update carries exactly the three locales, each with a non-empty text |
| ControllerProperties.EnrichUpdateAfterCreate | event-pixelphraser/src/controllers/event.controller.ts:113-121 | every update follows a create with the same product values |
| ControllerProperties.EnrichUpdateSameProduct | event-pixelphraser/src/controllers/event.controller.ts:105-121 | an update is for the acknowledged product and its analysed image |
| ControllerProperties.EnrichOutcome | event-pixelphraser/src/controllers/event.controller.ts:104-130 | after the acknowledgement, nothing more is sent exactly when every stage succeeds; otherwise one 500 is sent |
| ControllerProperties.EnrichComplete | event-pixelphraser/src/controllers/event.controller.ts:104-121 | when every stage succeeds, each stage after the acknowledgement is called once, in order |
| ControllerProperties.TranslatedTexts | event-pixelphraser/src/controllers/event.controller.ts:111-121 | the translations handed to the update have exactly the three locales as keys, each with a non-empty text |
| ControllerProperties.HandleRefused | event-pixelphraser/src/controllers/event.controller.ts:15-98 | without an acknowledgement the handler answers once, with 200, 400 or 500, and does no work |
| ControllerProperties.HandleAdmitted | event-pixelphraser/src/controllers/event.controller.ts:92-121 | with an acknowledgement, the trace is the two fetches, the 200, then the work |
| ControllerProperties.HandleStatuses | event-pixelphraser/src/controllers/event.controller.ts:12-131 | the statuses sent are [200], [400], [500] or [200, 500] |
| ControllerProperties.AckPrecedesWork | event-pixelphraser/src/controllers/event.controller.ts:100-121 | no analysis, generation, translation or write happens before the 200 |
| ControllerProperties.StagesInOrder | event-pixelphraser/src/controllers/event.controller.ts:63-121 | the stages called form a prefix of the pipeline order: fetch, type-key lookup, analysis, generation, translation, create, update |
| ControllerProperties.UpdateCarriesTranslations | event-pixelphraser/src/controllers/event.controller.ts:111-121 | any update the handler makes carries exactly the three locales, with non-empty texts |
| ControllerProperties.UpdateFollowsCreate | event-pixelphraser/src/controllers/event.controller.ts:113-121 | any update the handler makes follows a create of the same record |
| ControllerProperties.UpdateSameProduct | event-pixelphraser/src/controllers/event.controller.ts:64-121 | any update is for a product that was fetched and an image that was analysed |
| ControllerProperties.AckedOutcome | event-pixelphraser/src/controllers/event.controller.ts:100-130 | once acknowledged, the statuses are [200] exactly when every later stage succeeds, and [200, 500] otherwise |
| ControllerProperties.CompleteRun | event-pixelphraser/src/controllers/event.controller.ts:63-121 | a run in which every stage succeeds calls the whole pipeline, each stage once and in order |
| ControllerProperties.RefusalsCallNothing | event-pixelphraser/src/controllers/event.controller.ts:15-90 | a message refused by the message checks calls nothing; a product declined by its checks is answered right after its fetch |
| ControllerGates.MissingMessage | event-pixelphraser/src/controllers/event.controller.ts:15-19 | a body without a truthy message is answered with a 400 alone and calls nothing |
| ControllerGates.MissingData | event-pixelphraser/src/controllers/event.controller.ts:24-32 | missing data, or data that is blank once decoded and trimmed, is answered with a 400 alone |
| ControllerGates.Unparseable | event-pixelphraser/src/controllers/event.controller.ts:36 | data that fails to decode or parse is answered with a 500 alone, by the catch-all |
| ControllerGates.OtherNotification | event-pixelphraser/src/controllers/event.controller.ts:39-44 | a notification type other than ResourceCreated is answered with a 200 alone |
| ControllerGates.OtherEventType | event-pixelphraser/src/controllers/event.controller.ts:47-53 | a ResourceCreated event of a type other than ProductVariantAdded is answered with a 400 alone |
| ControllerGates.MissingProductId | event-pixelphraser/src/controllers/event.controller.ts:56-61 | an event whose resource id is falsy is answered with a 400 alone |
| ControllerGates.MessageAdmitted | event-pixelphraser/src/controllers/event.controller.ts:15-64 | a message that passes every check goes on to fetch the product its resource id names |
| ControllerGates.FetchRejected | event-pixelphraser/src/controllers/event.controller.ts:64 | a rejected product fetch is answered with one 500 after the fetch |
| ControllerGates.Declined | event-pixelphraser/src/controllers/event.controller.ts:66-90 | a product declined by its checks is answered with that status right after the fetch |
| ControllerGates.NameLookupThrows | event-pixelphraser/src/controllers/event.controller.ts:68 | a current projection without a name map makes the name read throw: one 500 after the fetch |
| ControllerGates.ProductDataMissing | event-pixelphraser/src/controllers/event.controller.ts:67-74 | a missing type id, en-GB name or image URL is one 400 after the fetch |
| ControllerGates.NoAttributes | event-pixelphraser/src/controllers/event.controller.ts:77-82 | missing or empty staged attributes are one 400 after the fetch |
| ControllerGates.FlagSearchThrows | event-pixelphraser/src/controllers/event.controller.ts:85 | a flag search that throws is one 500 after the fetch |
| ControllerGates.GenerationOff | event-pixelphraser/src/controllers/event.controller.ts:85-90 | a missing or falsy `generateDescription` flag is one 200 after the fetch |
| ControllerGates.TypeKeyMissing | event-pixelphraser/src/controllers/event.controller.ts:93-98 | an eligible product whose type key is missing gets the two fetches and a 500, with no acknowledgement |
| ControllerGates.Acknowledged | event-pixelphraser/src/controllers/event.controller.ts:93-121 | an eligible product with a type key gets the two fetches, the 200, then the work with its id, name, image URL and key |
| ControllerGates.EnrichOnlyWork | event-pixelphraser/src/controllers/event.controller.ts:104-130 | after the acknowledgement nothing is fetched: every event is a status or a call of the work |
| ControllerGates.ExamineLookUp | event-pixelphraser/src/controllers/event.controller.ts:64-93 | the type key is looked up only for a fetched product that passed its checks, and for that product's type id |
| ControllerGates.LookUpAfterChecks | event-pixelphraser/src/controllers/event.controller.ts:15-93 | the type key is looked up only once the message and the product passed every check |
| ControllerGates.WorkAfterLookUp | event-pixelphraser/src/controllers/event.controller.ts:93-105 | no work is done unless the type key was found and the 200 sent |
| ControllerGates.GenerateAsks | event-pixelphraser/src/controllers/event.controller.ts:107-111 | from the generation on, the model is asked for the description of the analysed image, and for translations of the generated description only |
| ControllerGates.EnrichAsks | event-pixelphraser/src/controllers/event.controller.ts:104-111 | after the acknowledgement, the model is asked only once the analysis succeeded |
| ControllerGates.AckedDescribe | event-pixelphraser/src/controllers/event.controller.ts:104-108 | after the acknowledgement, the description request carries the analysis result and the product's name and type key |
| ControllerGates.DescribeAfterAnalysis | event-pixelphraser/src/controllers/event.controller.ts:100-108 | the description is requested only once the message is acknowledged and the image analysis succeeded, with that analysis and the product's name and type key |
| ControllerGates.TranslateAfterGeneration | event-pixelphraser/src/controllers/event.controller.ts:100-111 | a translation is requested only once the analysis and the generation succeeded, and it carries the generated description |
| LanguagesConfigured.Without | mc-pixelphraser/src/components/project/languagesConfigured.tsx:67 | filtering removes every occurrence of the language |
| LanguagesConfigured.WithoutKeepsOthers | mc-pixelphraser/src/components/project/languagesConfigured.tsx:67 | filtering keeps every other language, as often as before |
| LanguagesConfigured.ToggleFlipsMembership | mc-pixelphraser/src/components/project/languagesConfigured.tsx:64-70 | a toggle flips the language's membership (removing every occurrence) and keeps every other language's membership |
| LanguagesConfigured.ToggleTwiceRestores | mc-pixelphraser/src/components/project/languagesConfigured.tsx:64-70 | toggling an unselected language twice restores the selection |
| LanguagesConfigured.ToggleKeepsDistinct | mc-pixelphraser/src/components/project/languagesConfigured.tsx:64-70 | a selection without duplicates stays without duplicates |
| LanguagesConfigured.Panel.constructor | mc-pixelphraser/src/components/project/languagesConfigured.tsx:24-29 | the initial state: nothing selected or saved, not in selection mode, no messages, loading |
| LanguagesConfigured.Panel.LoadSavedLanguages | mc-pixelphraser/src/components/project/languagesConfigured.tsx:40-62 | the saved list is replaced only by an array value; loading always ends; nothing else changes |
| LanguagesConfigured.Panel.ToggleLanguage | mc-pixelphraser/src/components/project/languagesConfigured.tsx:64-70 | the selection becomes the toggled selection and keeps being duplicate-free; nothing else changes |
| LanguagesConfigured.Panel.SelectAll | mc-pixelphraser/src/components/project/languagesConfigured.tsx:72-74 | the selection becomes the configured languages |
| LanguagesConfigured.Panel.DeselectAll | mc-pixelphraser/src/components/project/languagesConfigured.tsx:76-78 | the selection is emptied, which hides the Save button |
| LanguagesConfigured.Panel.ToggleSelectionMode | mc-pixelphraser/src/components/project/languagesConfigured.tsx:100-108 | offered only when languages are configured; it flips the mode and empties the selection |
| LanguagesConfigured.Panel.SaveSelection | mc-pixelphraser/src/components/project/languagesConfigured.tsx:80-94 | both messages are cleared first; success saves the pre-save selection, leaves selection mode and empties the selection; failure sets only the error message |

## Left out

- Decoding the message data is not modelled: base64, text decoding, trimming and `JSON.parse` are one abstract outcome (`EventController.Decoded`). The outcome is blank, a thrown error, or a parsed value.
- The commercetools SDK calls are collaborators given as functions. These are `fetchProduct`, `fetchProductType`, the two custom-object writes as the handler sees them, and the panel's fetch and save of the selection. `fetchProductType` never rejects: it gives the key, or null.
- The Vision analysis (`productAnalysis`) and the Gemini model are not modelled. They are functions from their input to a value or a failure. The model receives the structured request; `Prompts.Rendered` gives the text that request stands for.
- `generateProductDescription` declares a fourth parameter, `messageId`, which the handler does not pass. It only appears in log lines, so it is left out.
- `createProductCustomObject` declares a fifth parameter, the language list, which the handler does not pass. In the handler the create is an abstract stage that succeeds or fails, with the four values the handler passes (`EventController.Collaborators.createRecord`). The language slots are modelled in `CustomObjects.CreateProductCustomObject`.
- After the 200 has been sent, the catch-all's `status(500).send()` is recorded as a second status. What Express then does with a response already sent is not modelled.
- Logging, the Express app and router, and the asynchronous timing are not modelled. The awaited calls are taken in order, with no concurrency.
- The clock is a parameter: `generatedAt` is passed to `CustomObjects.UpdateCustomObjectWithDescription`.
- Numbers are integers only. Floating-point values, `NaN` and their string forms are not modelled.
- An object is a list of entries with distinct keys, in the order JavaScript enumerates them. `Js.Lookup` takes the first entry with the key, so duplicate keys, which `JSON.parse` resolves to the last one, are not modelled.
- The model does not put integer-like keys first. JavaScript enumerates such keys first, in ascending order, and that order reaches `SelectedLanguages.ObjectValues`. A stored custom-object value is a map, so its key order is not modelled either.
- CustomObjects.Store.Post: a write without a version creates the object or replaces the stored one. So a redelivered event overwrites the staging record with a new placeholder. A create that fails because the object already exists is not modelled.
- EventController.FindFrom: its own contract states only that a found element is a named element of the ones searched. Which element is found, and when the search throws, is proved in `EventController.FindFromFirst`.
- The panel's JSX rendering, styling and notifications are not modelled. The success notification in `handleSaveSelection` is one of these. The two button-visibility conditions are kept as predicates.
- Some of the repository's tests describe a later version of the handler. In that version a missing message gives 200, it gates on 'Message' and 'ProductCreated', it falls back to other names, and it threads translation languages and message ids. The model follows the controller as written.
- SelectedLanguages.FetchSelectedLanguages: the stored value is read as one abstract outcome. A missing response body, which would throw on `.value`, is folded into the read's failure.
- CustomObjects.Store.Post: the platform's versioning is modelled as optimistic concurrency, with the version starting at 1 and going up by one per write. Any other rule the platform applies is not modelled.
