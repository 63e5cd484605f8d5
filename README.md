# MLService response reduction, modelled in Dafny

`MLService` (ml_service.py) is a thin adapter over Google Cloud Vision. It sends
an image to the service and reduces the annotation result to three outputs:

- `generate_alt_text`: an alt-text string. It is the first landmark's
  description, or else "Image containing " followed by the first three
  labels, or else the fallback "Image uploaded by user".
- `detect_objects`: a tag list. It collects the confident labels and the
  confident localized objects (score strictly above 0.5), then every landmark
  and every logo, all lower-cased and in that order. It then drops repeats and
  keeps first occurrences.
- `get_detailed_analysis`: one combined call, reduced to a record. The record
  holds the alt text, the labels-and-objects tags (no landmarks or logos),
  at most three dominant colours and the first text annotation.

Each operation degrades to a fixed value when there is no client. It gives the
same value when the file read or a remote call raises.

The model has four modules:

- `Vision` (vision.dfy): the annotation result as a datatype. It also holds
  `Call<T>`, which is the outcome of a step that may raise (`Returned(v)` or
  `Raised`).
- `Strings` (strings.dfy): `str.lower()` as ASCII lower-casing, and `str.join`.
- `Unique` (unique.dfy): order-preserving removal of repeats (`Dedup`). Two
  lemmas characterise it: it keeps exactly the input's elements, once each, in
  first-occurrence order, and it is the only list that does so.
- `MlService` (ml_service.dfy): the service handle, the three public operations
  and the three response helpers.

The collecting loops of `detect_objects`, `_extract_objects_from_response` and
`_extract_colors_from_response` are methods with `for` loops. Their invariants tie
the loops to the recursive specification functions `LabelTags`, `ObjectTags`,
`DescriptionTags` and `Dedup`. The alt-text builders are conditional expressions
in the source, so they are functions here.

The remote calls and the file read are parameters of type `Call<...>`. A
`Raised` value stands for the exception the operation catches. The client
handle is `Service(hasClient)`, built by `NewService`.

## Model

| member | source | states |
|---|---|---|
| `MlService.NewService` | ml_service.py:10-22 | the client exists exactly when the credentials variable is set and non-empty and creating the client did not raise |
| `MlService.GenerateAltText` | ml_service.py:24-67 | without a client, or when the read or any of the three calls raises, the result is "Image uploaded by user". Otherwise it is the first landmark's description alone if there is a landmark, else "Image containing " plus the first three labels joined by ", ", else the fallback. The text annotations are never read |
| `MlService.AltTextParts` | ml_service.py:49-58 | at most one sentence fragment is ever collected, so the ". " join never joins two fragments |
| `MlService.TopLabelDescriptions` | ml_service.py:56 | the descriptions of the first min(3, n) labels, in the service's order |
| `MlService.BuildAltText` | ml_service.py:172-182 | the same three-way precedence for the combined call: landmark, else label sentence, else fallback |
| `MlService.AltTextBuildersAgree` | ml_service.py:49-63 | for the same labels and landmarks, `generate_alt_text` and `_build_alt_text_from_response` give the same text, whatever text annotations were fetched |
| `MlService.AltTextExamples` | ml_service.py:51-58 | "Eiffel Tower" with labels tower, metal, sky gives "Eiffel Tower" on both paths; cat, animal, pet, toy gives "Image containing cat, animal, pet" |
| `MlService.LabelTagsMembers` | ml_service.py:86-88 | a tag comes from the labels exactly when some label with score > 0.5 has that lower-cased description |
| `MlService.ObjectTagsMembers` | ml_service.py:92-94 | a tag comes from the objects exactly when some localized object with score > 0.5 has that lower-cased name |
| `MlService.ThresholdIsStrict` | ml_service.py:85-104 | a label or object scoring exactly 0.5 is dropped, one scoring above 0.5 is kept, and landmarks are never dropped |
| `MlService.DetectObjects` | ml_service.py:69-118 | without a client, or when the read or any of the four calls raises, the result is []. Otherwise it is the reduction of labels, objects, landmarks and logos, collected in that order: no repeats, exactly the collected elements, in first-occurrence order |
| `MlService.ExtractObjects` | ml_service.py:184-196 | the reduction of the confident labels followed by the confident objects |
| `MlService.ResponseTagsSources` | ml_service.py:184-196 | the combined call's tags have no repeats, and each one is a confident label or a confident object (never a landmark or logo as such) |
| `MlService.TagListsDiverge` | ml_service.py:96-104 | a response with only a landmark yields one tag from `detect_objects` and none from the combined call |
| `MlService.ExtractColors` | ml_service.py:198-209 | at most three entries. Entry i copies the red, green, blue and score of the i-th dominant colour unchanged. The list is empty when there is no image-properties annotation |
| `MlService.GetDetailedAnalysis` | ml_service.py:120-170 | without a client, or when the read or the call raises, the degraded record, which stores colours under `colors`. Otherwise alt text per `BuildAltText`, objects per `ExtractObjects`, colours per `ExtractColors` under `dominant_colors`, and text = the first text annotation or "" |
| `Strings.Join` | ml_service.py:58-61 | joining no parts gives "", one part gives that part, and the result starts with the first part |
| `Unique.DedupIsOrderedReduction` | ml_service.py:106-114 | the seen-set reduction keeps every element of the input and adds none. It keeps each element once, in first-occurrence order |
| `Unique.OrderedReductionIsDedup` | ml_service.py:106-114 | any list with those properties equals the reduction, so they determine it |
| `Unique.DedupExample` | ml_service.py:106-112 | cat, dog, cat, bird reduces to cat, dog, bird |

## Left out

- The Vision client (`ImageAnnotatorClient`, the `*_detection` calls, `annotate_image`, the feature and request construction): these are foreign calls. Their results are `Call<Response>` parameters, and a raised exception is `Raised`.
- The requested `max_results` caps: they are requests to the remote service, and this code does not enforce them.
- File reads with `io.open`: the read is a `Call<seq<bv8>>` parameter. Its bytes feed only the remote calls, so only its failure matters.
- `os.getenv`, `load_dotenv` and setting the environment variable: `NewService` takes the variable's value and the outcome of creating the client as parameters.
- `print` logging, the module-level singleton and the unused PIL import: they do not affect any returned value.
- Python exception semantics beyond "a step raised and the operation returned its fallback".
- Floating-point scores: scores are `real`, compared strictly against 0.5. Colour channels are `int` and are only copied.
- `Strings.Lower`: models `str.lower()` on ASCII letters only; Unicode case mapping is not modelled, and no property of case mapping is proved.
- Bounding regions of localized objects and `pixel_fraction` of colours: the source never reads them.
- The dictionaries returned by `get_detailed_analysis` are the `Analysis` datatype. Its `colorsKey` field records which of the two keys holds the colour list.
- Idempotence across calls: every operation is a function or a method with no state, so equal inputs give equal outputs. No separate lemma states this.
- If the first landmark's description is the empty string, both alt-text builders return "" rather than the fallback. The code does this, and the model follows the code.
