# Fitness AI analysis step: a Dafny model

This project models the AI analysis step of the fitness application's AI service,
`ActivityAIService`. For one activity the service renders a prompt and sends it to the
generative-AI provider. It then turns the provider's untrusted reply into a recommendation
record whose three lists are never empty. The reply goes through two parse stages:

1. **Envelope stage.** The reply is parsed as JSON, and the text at
   `candidates[0].content.parts[0].text` is read with Jackson's `path`, `get(0)` and `asText`.
2. **Fence stripping.** Every "```json\n" and every "\n```" is removed, and the text is trimmed.
3. **Inner stage.** The result is parsed as a second JSON document.
4. **Building the record.** A labelled narrative is built from `analysis.{overall, pace,
   heartRate, caloriesBurned}`, and three lists are read from `improvements`, `suggestions`
   and `saftey`. Each list falls back to a fixed placeholder when it comes out empty.

If either parse throws, or either `get(0)` returns null, the service falls back to a fixed
default recommendation.

Files:

- `wrappers.dfy`: `Option`. `None` stands for a Java null or a thrown exception.
- `text.dfy` (module `Text`): the `java.lang.String` operations the service uses. These are
  literal `replaceAll` with an empty replacement, `trim`, `%d`, and `Map.toString`.
- `json.dfy` (module `Json`): the `JsonNode` tree with `path`, `get(0)` and `asText`.
  `Missing` is Jackson's MissingNode.
- `activity_ai_service.dfy` (module `ActivityAIService`): the service itself.
  - `ParseAiResponse` returns a result type whose failure variant `UseDefault` records which
    stage failed.
  - `ProcessAiResponse` assembles the record, or returns `DefaultRecommendation`.
  - `GenerateRecommendation` composes the prompt, the gateway and processing.
  - The parts of the source that update state in place are modelled as methods: the
    `StringBuilder` narrative becomes `TextBuilder`, `AddAnalysisSection` and `BuildNarrative`.
    The three `forEach` loops that fill an `ArrayList` become `ExtractPairLines`,
    `ExtractImprovements`, `ExtractSuggestions` and `ExtractSafetyGuidelines`. Each method is
    proved to compute the specification function that the pure pipeline uses.

Several external pieces are parameters of the model. `ObjectMapper.readTree` is
`parse: string -> Option<Node>`, the gateway `GeminiService.getAnswer` is
`answer: string -> string`, and the clock reading is `now`. Every property below therefore
holds for every parser, every gateway reply and every clock reading.

The model follows the code as written, quirks included:

- The safety list is read from the key `saftey` (`ActivityAIService.java:60`), not `safety`.
- The three placeholders at `ActivityAIService.java:113`, `:125` and `:133` have no final period.
- The labels have no space after the colon.
- The prompt asks for a flat JSON shape (`recommendation`, `improvements`, `suggestions`,
  `safety`) that the parser does not read. `RequestedShapeIsNotRead` states what such a reply
  turns into.
- The gateway call at `ActivityAIService.java:27` sits outside the `try` block of
  `processAiResponse` (lines 34-76), so a gateway failure propagates to the caller instead of
  leading to the default recommendation.
- The two `replaceAll` calls at `ActivityAIService.java:45-46` remove every occurrence of both
  fence markers, wherever they stand, not just one leading and one trailing fence.

## Model

| member | source | states |
|---|---|---|
| `ActivityAIService.GenerateRecommendation` | aiservice/src/main/java/com/fitness/aiservice/service/ActivityAIService.java:25-31 | The reply to the activity's prompt is processed. For every gateway reply the record copies the activity's id, user id and type, its three lists are non-empty, and it carries the supplied timestamp. |
| `ActivityAIService.ProcessAiResponse` | aiservice/src/main/java/com/fitness/aiservice/service/ActivityAIService.java:33-77 | Parsed or default, the record copies id, user id and type from the activity, has non-empty improvements, suggestions and safety lists, and carries the supplied timestamp. |
| `ActivityAIService.DefaultExactlyOnFailure` | aiservice/src/main/java/com/fitness/aiservice/service/ActivityAIService.java:34-76 | The result equals the default recommendation exactly when the outer parse fails, the root has no non-empty `candidates` array with a non-empty `content.parts` array in its first element, or the fence-stripped text does not parse. A parsed narrative is empty or starts with a label, so it never equals the default narrative. |
| `ActivityAIService.ParseAiResponse` | aiservice/src/main/java/com/fitness/aiservice/service/ActivityAIService.java:34-60 | The outcome records the stage that failed: `OuterParse` exactly when the reply does not parse, `EnvelopeShape` exactly when it parses but a `get(0)` finds no first candidate or part, `InnerParse` exactly when the envelope is sound but the fence-stripped text does not parse. When both stages parse, the analysis is the one read from the inner document. |
| `ActivityAIService.FencedReplyIsAnalysed` | aiservice/src/main/java/com/fitness/aiservice/service/ActivityAIService.java:36-69 | Take a reply that parses to a provider envelope, with any other keys, whose first candidate's first part has as `text` a trimmed, fenced inner document without markers of its own, followed by any blanks. The record's narrative and lists are then those read from that inner document. |
| `ActivityAIService.DefaultRecommendation` | aiservice/src/main/java/com/fitness/aiservice/service/ActivityAIService.java:79-94 | The default copies the activity's identity. Its narrative is "Unable to generate detailed analysis", improvements ["Continue with your current routine"], suggestions ["Consider consulting a fitness professional"], and safety ["Always warm up before exercise", "Stay hydrated", "Listen to your body"]. |
| `ActivityAIService.EnvelopeText` | aiservice/src/main/java/com/fitness/aiservice/service/ActivityAIService.java:38-44 | The envelope yields text exactly when `candidates` is a non-empty array whose first element has `content.parts` as a non-empty array; otherwise a `get(0)` is null and the next call throws. The text is `asText` of the first part's `text`, so a part without `text` gives "" and not a failure. |
| `Json.Path` | aiservice/src/main/java/com/fitness/aiservice/service/ActivityAIService.java:38-43 | `path(key)` gives the field's value on an object that has the key, and the missing node for an absent key or any non-object. |
| `Json.First` | aiservice/src/main/java/com/fitness/aiservice/service/ActivityAIService.java:39-42 | `get(0)` gives a node exactly when the node is a non-empty array, and that node is the first element; otherwise it gives null. |
| `Json.AsText` | aiservice/src/main/java/com/fitness/aiservice/service/ActivityAIService.java:44 | `asText` gives a text node's string, a number's rendering and "null" for the null node, and "" for the missing node, arrays and objects. |
| `ActivityAIService.EnvelopeRoundTrip` | aiservice/src/main/java/com/fitness/aiservice/service/ActivityAIService.java:38-43 | The text put into a one-candidate, one-part provider envelope is read back unchanged. |
| `ActivityAIService.StripFences` | aiservice/src/main/java/com/fitness/aiservice/service/ActivityAIService.java:44-47 | The stripped text neither begins nor ends with a character at or below U+0020. |
| `ActivityAIService.StripFencesKeepsPlainText` | aiservice/src/main/java/com/fitness/aiservice/service/ActivityAIService.java:44-47 | Text that is already trimmed and holds neither "```json\n" nor "\n```" comes back unchanged. |
| `ActivityAIService.StripFencesUndoesFence` | aiservice/src/main/java/com/fitness/aiservice/service/ActivityAIService.java:44-47 | Stripping "```json\n" + doc + "\n```" + blanks gives back doc, when doc is trimmed and holds no marker of its own (including one the closing fence's newline would complete). |
| `Text.RemoveAll` | aiservice/src/main/java/com/fitness/aiservice/service/ActivityAIService.java:45-46 | `replaceAll` of a literal pattern with "" never lengthens the text. |
| `Text.RemoveAllKeepsUntouchedPrefix` | aiservice/src/main/java/com/fitness/aiservice/service/ActivityAIService.java:45-46 | Left-to-right removal of a literal pattern keeps a prefix in which no occurrence starts, and works on the rest alone. |
| `Text.RemoveAllWithoutOccurrence` | aiservice/src/main/java/com/fitness/aiservice/service/ActivityAIService.java:45-46 | Removing a pattern that does not occur leaves the text unchanged. |
| `Text.Trim` | aiservice/src/main/java/com/fitness/aiservice/service/ActivityAIService.java:47 | The result of `trim` neither starts nor ends with a character at or below U+0020. |
| `Text.TrimIsInfix` | aiservice/src/main/java/com/fitness/aiservice/service/ActivityAIService.java:47 | `trim` yields an infix of its input, and everything it cuts off on either side is at or below U+0020. |
| `Text.TrimDropsTrailingBlanks` | aiservice/src/main/java/com/fitness/aiservice/service/ActivityAIService.java:66 | Trimming a trimmed, non-empty text followed by blanks gives that text. This is how the final "\n\n" of the narrative disappears. |
| `Text.TrimKeepsFirst` | aiservice/src/main/java/com/fitness/aiservice/service/ActivityAIService.java:66 | Trimming keeps a first character above U+0020. |
| `ActivityAIService.TextBuilder.Append` | aiservice/src/main/java/com/fitness/aiservice/service/ActivityAIService.java:98-100 | `StringBuilder.append` leaves the builder holding its old text followed by the appended string, and changes nothing else. |
| `ActivityAIService.AddAnalysisSection` | aiservice/src/main/java/com/fitness/aiservice/service/ActivityAIService.java:96-102 | The builder gains prefix + `asText` of the value + "\n\n" when the key is present under `analysis`, and nothing when the key is missing. |
| `ActivityAIService.BuildNarrative` | aiservice/src/main/java/com/fitness/aiservice/service/ActivityAIService.java:52-56 | The four in-place appends in the order Overall:, Pace:, Heart Rate:, Calories:, followed by `trim`, compute `Narrative`. |
| `ActivityAIService.Narrative` | aiservice/src/main/java/com/fitness/aiservice/service/ActivityAIService.java:66 | The consolidated narrative is trimmed. |
| `ActivityAIService.NarrativeEmptyIff` | aiservice/src/main/java/com/fitness/aiservice/service/ActivityAIService.java:53-56 | The narrative is empty exactly when none of overall, pace, heartRate and caloriesBurned is present. Absent keys contribute nothing, and a present key, even one with an empty value, leaves its label. |
| `ActivityAIService.NarrativeIsNotDefault` | aiservice/src/main/java/com/fitness/aiservice/service/ActivityAIService.java:53-56 | No parsed narrative equals "Unable to generate detailed analysis". |
| `ActivityAIService.OverallOnlyNarrative` | aiservice/src/main/java/com/fitness/aiservice/service/ActivityAIService.java:96-102 | With only `overall` present and a trimmed value, the narrative is "Overall:" directly followed by that value. |
| `ActivityAIService.OverallStringNarrative` | aiservice/src/main/java/com/fitness/aiservice/service/ActivityAIService.java:96-102 | An `analysis` object holding only `overall` with a trimmed string value gives "Overall:" followed by that string. |
| `ActivityAIService.GoodPaceExample` | aiservice/src/main/java/com/fitness/aiservice/service/ActivityAIService.java:53 | `analysis = {"overall": "Good pace"}` gives exactly "Overall:Good pace". |
| `ActivityAIService.ExtractPairLines` | aiservice/src/main/java/com/fitness/aiservice/service/ActivityAIService.java:104-126 | The loop over the array's elements computes one "first: second" line per element, in order. A non-array or an empty array gives the single placeholder. |
| `ActivityAIService.ExtractImprovements` | aiservice/src/main/java/com/fitness/aiservice/service/ActivityAIService.java:104-114 | Computes `Improvements`: "area: recommendation" per element, placeholder "No specific improvements provided". |
| `ActivityAIService.ExtractSuggestions` | aiservice/src/main/java/com/fitness/aiservice/service/ActivityAIService.java:116-126 | Computes `Suggestions`: "workout: description" per element, placeholder "No specific suggestions provided". |
| `ActivityAIService.ExtractSafetyGuidelines` | aiservice/src/main/java/com/fitness/aiservice/service/ActivityAIService.java:128-134 | The loop computes `asText` of each element in order, or the single placeholder "Follow general safety guidelines" for a non-array or an empty array. |
| `ActivityAIService.PairLinesPlaceholderIff` | aiservice/src/main/java/com/fitness/aiservice/service/ActivityAIService.java:104-126 | A rendered pair always holds ": ". A placeholder without a colon therefore stands alone exactly when the node is not a non-empty array. |
| `ActivityAIService.ImprovementsPlaceholderIff` | aiservice/src/main/java/com/fitness/aiservice/service/ActivityAIService.java:104-114 | Improvements are exactly ["No specific improvements provided"] when the node is not an array or is an empty one, and only then. |
| `ActivityAIService.SuggestionsPlaceholderIff` | aiservice/src/main/java/com/fitness/aiservice/service/ActivityAIService.java:116-126 | Suggestions are exactly ["No specific suggestions provided"] when the node is not an array or is an empty one, and only then. |
| `ActivityAIService.AreaOnlyImprovement` | aiservice/src/main/java/com/fitness/aiservice/service/ActivityAIService.java:108-110 | The improvement `{"area":"Form"}` renders as "Form: ". The missing sub-field gives "" and no error. |
| `ActivityAIService.SafetyGuidelines` | aiservice/src/main/java/com/fitness/aiservice/service/ActivityAIService.java:128-134 | The safety list is never empty. |
| `ActivityAIService.PairLines` | aiservice/src/main/java/com/fitness/aiservice/service/ActivityAIService.java:104-126 | The improvements and suggestions lists are never empty: one line per element, or the placeholder alone. |
| `ActivityAIService.Analyse` | aiservice/src/main/java/com/fitness/aiservice/service/ActivityAIService.java:50-60 | An inner document yields non-empty improvements, suggestions and safety lists. |
| `ActivityAIService.SafetyNeedsMisspelledKey` | aiservice/src/main/java/com/fitness/aiservice/service/ActivityAIService.java:60 | A document without the key "saftey" gets ["Follow general safety guidelines"], even when it has a correctly spelled "safety" array. |
| `ActivityAIService.PairLinesOfStrings` | aiservice/src/main/java/com/fitness/aiservice/service/ActivityAIService.java:107-110 | A non-empty array of plain strings renders as one ": " per element, because strings have no sub-fields. |
| `ActivityAIService.RequestedShapeIsNotRead` | aiservice/src/main/java/com/fitness/aiservice/service/ActivityAIService.java:150-156 | A reply in the flat shape the prompt requests gives an empty narrative, ": " for every improvement and suggestion, and the safety placeholder. |
| `ActivityAIService.PromptForActivity` | aiservice/src/main/java/com/fitness/aiservice/service/ActivityAIService.java:136-163 | The prompt is laid out as the fixed introduction, then, in order, "Activity Type: " + type, "Duration: " + `%d` of the duration + " minutes", "Calories Burned: " + `%d` of the calories, and "Additional Metrics: " + the map's rendering, each on its own line, and finally the fixed instruction text; each piece stands at the sum of the lengths before it and nothing follows the instructions. |
| `Text.FormatInt` | aiservice/src/main/java/com/fitness/aiservice/service/ActivityAIService.java:140-141 | `%d` gives an optional '-', present exactly for a negative number, followed by a non-empty run of decimal digits with no leading zero. |
| `Text.FormatIntRoundTrip` | aiservice/src/main/java/com/fitness/aiservice/service/ActivityAIService.java:140-141 | `%d` prints a number that reads back to the same value: digits for a non-negative number, a minus sign and the digits of the magnitude otherwise. |
| `Text.DigitsRoundTrip` | aiservice/src/main/java/com/fitness/aiservice/service/ActivityAIService.java:140-141 | The decimal digits of a natural number denote that number. |
| `Text.RenderMap` | aiservice/src/main/java/com/fitness/aiservice/service/ActivityAIService.java:161 | The metrics map's rendering is braced, and an empty map renders as "{}". |

## Left out

- `ActivityMessageListener.processActivity` is left out. It takes an activity from the queue, calls `generateRecommendation` and saves the result. Its behaviour lives in the message broker and in a repository whose code is not part of this model.
- `RabbitMQConfig`, `ActivityController` and `UserResponse` are framework declarations, HTTP routing and a data holder with no logic. `ActivityService` and `GeminiService` are not part of this model.
- The Java sources of the `Activity` and `Recommendation` model classes are not available. The datatypes `Activity` and `Recommendation` keep only the fields the service reads (the getters at `ActivityAIService.java:63-65`, `81-83` and `158-161`) and the fields it sets (the builders at `ActivityAIService.java:62-71` and `80-93`). Their types are inferred from that use: `duration` and `caloriesBurned` are integers, `activityType` is text, the metrics map is an entry list, and the `LocalDateTime` timestamp is an `int`.
- `GeminiService.getAnswer` is a network call. It is the parameter `answer`, and only the case where it returns a reply is modelled. Its exceptions are thrown outside the `try` block and are not absorbed by the default path.
- `ObjectMapper.readTree` is the parameter `parse`. `None` means it throws, or returns null as older Jackson versions do for empty content. `Some(Missing)` covers newer versions, which return a missing node for empty content; the model then builds an analysis from it. Duplicate keys and the rendering of numbers are the parser's business: `Num` carries the text Jackson renders.
- `LocalDateTime.now()` is the parameter `now`. Both paths read the clock, and the model gives them the same reading.
- Logging and `printStackTrace` are left out.
- The `Activity` getters may return null in Java, which `String.format` renders as "null". The model takes every field as present.
- `Map.toString`: the map's iteration order and its values' `toString` are given as the `additionalMetrics` entry list. A null map is not modelled.
- `%d` is modelled for locales whose zero digit is '0'. Locale-specific digits are not modelled.
- `replaceAll` takes a regular expression. Both patterns the service uses are literal text, so the model performs literal removal.
- Java `Error`s such as running out of memory are not modelled. Within the `try` block, the model's only failures are the two parses and the two null dereferences.
- The `ArrayList`s and the `StringBuilder` are local to one call and never shared. The lists are therefore modelled as sequence values built in a loop, and only the builder, which `addAnalysisSection` receives and mutates, is a class.
