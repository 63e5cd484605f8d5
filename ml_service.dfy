/** The response-reduction layer of `MLService`: how an annotation result
    becomes alt text, a tag list and a combined analysis record, and what
    each operation returns when it has no client or a step raises. */
module MlService {
  import opened Vision
  import opened Strings
  import opened Unique

  const FALLBACK_ALT_TEXT: string := "Image uploaded by user"
  const LABEL_SENTENCE_PREFIX: string := "Image containing "
  const CONFIDENCE_THRESHOLD: real := 0.5
  /** The number of labels named in the alt text and of colours reported. */
  const TOP_COUNT: nat := 3
  /** The colour list's key in a successful analysis record ... */
  const DOMINANT_COLORS_KEY: string := "dominant_colors"
  /** ... and in the record returned when the analysis cannot run. */
  const COLORS_KEY: string := "colors"

  function Min(a: int, b: int): int {
    if a <= b then a else b
  }

  /** The service with its (optional) Vision client handle. */
  datatype Service = Service(hasClient: bool)

  /** One entry of the colour list: the colour's channels and its score. */
  datatype ColorEntry = ColorEntry(red: int, green: int, blue: int, score: real)

  /** The record `get_detailed_analysis` returns; `colorsKey` is the key under
      which its colour list is stored. */
  datatype Analysis = Analysis(
    altText: string,
    objects: seq<string>,
    colorsKey: string,
    colors: seq<ColorEntry>,
    text: string)

  const DEGRADED_ANALYSIS: Analysis := Analysis(FALLBACK_ALT_TEXT, [], COLORS_KEY, [], "")

  /** Construction: the client is created only when the credentials variable is
      set to a non-empty value, and a failure to create it leaves the handle
      absent instead of propagating. */
  function NewService(credentialsPath: Option<string>, clientInit: Call<()>): (s: Service)
    ensures s.hasClient ==> credentialsPath.Some? && credentialsPath.value != ""
    ensures s.hasClient ==> clientInit.Returned?
    ensures credentialsPath.Some? && credentialsPath.value != "" && clientInit.Returned? ==> s.hasClient
  {
    match credentialsPath
    case Some(path) =>
      if path != "" then Service(clientInit.Returned?) else Service(false)
    case None => Service(false)
  }

  // ---------------------------------------------------------------------
  // Tags

  predicate Confident(score: real) {
    score > CONFIDENCE_THRESHOLD
  }

  /** Lower-cased descriptions of the labels scoring above the threshold, in
      order. */
  function LabelTags(labels: seq<Annotation>): seq<string>
    decreases |labels|
  {
    if labels == [] then []
    else
      var last := labels[|labels| - 1];
      LabelTags(labels[..|labels| - 1]) + if Confident(last.score) then [Lower(last.description)] else []
  }

  /** Lower-cased names of the localized objects scoring above the threshold,
      in order. */
  function ObjectTags(objects: seq<LocalizedObject>): seq<string>
    decreases |objects|
  {
    if objects == [] then []
    else
      var last := objects[|objects| - 1];
      ObjectTags(objects[..|objects| - 1]) + if Confident(last.score) then [Lower(last.name)] else []
  }

  /** Lower-cased descriptions of all the annotations, unfiltered. */
  function DescriptionTags(annotations: seq<Annotation>): seq<string> {
    seq(|annotations|, i requires 0 <= i < |annotations| => Lower(annotations[i].description))
  }

  /** What `detect_objects` collects before removing repeats: labels, then
      objects, then landmarks, then logos. */
  function CollectedTags(labels: seq<Annotation>, objects: seq<LocalizedObject>,
                         landmarks: seq<Annotation>, logos: seq<Annotation>): seq<string>
  {
    LabelTags(labels) + ObjectTags(objects) + DescriptionTags(landmarks) + DescriptionTags(logos)
  }

  /** What the combined analysis reports as objects: labels, then objects,
      without repeats. */
  function ResponseTags(r: Response): seq<string> {
    Dedup(LabelTags(r.labels) + ObjectTags(r.objects))
  }

  /** A tag comes from a label exactly when that label scores strictly above
      the threshold. */
  lemma {:induction false} LabelTagsMembers(labels: seq<Annotation>)
    ensures |LabelTags(labels)| <= |labels|
    ensures forall t :: t in LabelTags(labels) <==>
      exists i :: 0 <= i < |labels| && Confident(labels[i].score) && t == Lower(labels[i].description)
    decreases |labels|
  {
    if labels != [] {
      var p, last := labels[..|labels| - 1], labels[|labels| - 1];
      LabelTagsMembers(p);
      assert forall i :: 0 <= i < |p| ==> p[i] == labels[i];
    }
  }

  /** A tag comes from a localized object exactly when that object scores
      strictly above the threshold. */
  lemma {:induction false} ObjectTagsMembers(objects: seq<LocalizedObject>)
    ensures |ObjectTags(objects)| <= |objects|
    ensures forall t :: t in ObjectTags(objects) <==>
      exists i :: 0 <= i < |objects| && Confident(objects[i].score) && t == Lower(objects[i].name)
    decreases |objects|
  {
    if objects != [] {
      var p, last := objects[..|objects| - 1], objects[|objects| - 1];
      ObjectTagsMembers(p);
      assert forall i :: 0 <= i < |p| ==> p[i] == objects[i];
    }
  }

  /** The threshold is strict: a score of exactly 0.5 is dropped, any higher
      score is kept; landmarks and logos are never dropped. */
  lemma ThresholdIsStrict(d: string, score: real, landmarks: seq<Annotation>)
    ensures LabelTags([Annotation(d, 0.5)]) == []
    ensures ObjectTags([LocalizedObject(d, 0.5)]) == []
    ensures score > 0.5 ==> LabelTags([Annotation(d, score)]) == [Lower(d)]
    ensures score > 0.5 ==> ObjectTags([LocalizedObject(d, score)]) == [Lower(d)]
    ensures |DescriptionTags(landmarks)| == |landmarks|
  {
  }

  /** `detect_objects`: four remote calls, four collecting loops, then a scan
      that keeps each tag the first time it is seen. With no client, or when
      the file read or any call raises, the result is empty. */
  method DetectObjects(service: Service, content: Call<seq<bv8>>,
                       labelCall: Call<Response>, objectCall: Call<Response>,
                       landmarkCall: Call<Response>, logoCall: Call<Response>)
    returns (tags: seq<string>)
    ensures !service.hasClient ==> tags == []
    ensures (|| content.Raised? || labelCall.Raised? || objectCall.Raised?
             || landmarkCall.Raised? || logoCall.Raised?) ==> tags == []
    ensures (&& service.hasClient && content.Returned? && labelCall.Returned? && objectCall.Returned?
             && landmarkCall.Returned? && logoCall.Returned?) ==>
      var collected := CollectedTags(labelCall.value.labels, objectCall.value.objects,
                                     landmarkCall.value.landmarks, logoCall.value.logos);
      && tags == Dedup(collected)
      && NoDuplicates(tags)
      && OrderedReductionOf(collected, tags)
  {
    tags := [];
    if !service.hasClient || content.Raised? {
      return;
    }
    var objects: seq<string> := [];

    if labelCall.Raised? {
      return;
    }
    var labels := labelCall.value.labels;
    for i := 0 to |labels|
      invariant objects == LabelTags(labels[..i])
    {
      assert labels[..i + 1][..i] == labels[..i];
      if labels[i].score > 0.5 {
        objects := objects + [Lower(labels[i].description)];
      }
    }
    assert labels[..|labels|] == labels;

    if objectCall.Raised? {
      return;
    }
    var localized := objectCall.value.objects;
    for i := 0 to |localized|
      invariant objects == LabelTags(labels) + ObjectTags(localized[..i])
    {
      assert localized[..i + 1][..i] == localized[..i];
      if localized[i].score > 0.5 {
        objects := objects + [Lower(localized[i].name)];
      }
    }
    assert localized[..|localized|] == localized;

    if landmarkCall.Raised? {
      return;
    }
    var landmarks := landmarkCall.value.landmarks;
    for i := 0 to |landmarks|
      invariant objects == LabelTags(labels) + ObjectTags(localized) + DescriptionTags(landmarks[..i])
    {
      assert DescriptionTags(landmarks[..i + 1]) == DescriptionTags(landmarks[..i]) + [Lower(landmarks[i].description)];
      objects := objects + [Lower(landmarks[i].description)];
    }
    assert landmarks[..|landmarks|] == landmarks;

    if logoCall.Raised? {
      return;
    }
    var logos := logoCall.value.logos;
    for i := 0 to |logos|
      invariant objects == LabelTags(labels) + ObjectTags(localized) + DescriptionTags(landmarks)
                           + DescriptionTags(logos[..i])
    {
      assert DescriptionTags(logos[..i + 1]) == DescriptionTags(logos[..i]) + [Lower(logos[i].description)];
      objects := objects + [Lower(logos[i].description)];
    }
    assert logos[..|logos|] == logos;

    var seen: set<string> := {};
    var unique: seq<string> := [];
    for k := 0 to |objects|
      invariant unique == Dedup(objects[..k])
      invariant forall t :: t in seen <==> t in unique
    {
      assert objects[..k + 1][..k] == objects[..k];
      var obj := objects[k];
      if obj !in seen {
        seen := seen + {obj};
        unique := unique + [obj];
      }
    }
    assert objects[..|objects|] == objects;
    DedupIsOrderedReduction(objects);
    tags := unique;
  }

  /** `_extract_objects_from_response`: two collecting loops over the
      response's labels and objects, then `dict.fromkeys` to drop repeats. */
  method ExtractObjects(r: Response) returns (tags: seq<string>)
    ensures tags == Dedup(LabelTags(r.labels) + ObjectTags(r.objects))
  {
    var objects: seq<string> := [];
    for i := 0 to |r.labels|
      invariant objects == LabelTags(r.labels[..i])
    {
      assert r.labels[..i + 1][..i] == r.labels[..i];
      if r.labels[i].score > 0.5 {
        objects := objects + [Lower(r.labels[i].description)];
      }
    }
    assert r.labels[..|r.labels|] == r.labels;
    for i := 0 to |r.objects|
      invariant objects == LabelTags(r.labels) + ObjectTags(r.objects[..i])
    {
      assert r.objects[..i + 1][..i] == r.objects[..i];
      if r.objects[i].score > 0.5 {
        objects := objects + [Lower(r.objects[i].name)];
      }
    }
    assert r.objects[..|r.objects|] == r.objects;
    tags := Dedup(objects);
  }

  /** The combined call's tags hold no repeats, and each is a confident label
      or a confident object: never a landmark or logo as such. */
  lemma ResponseTagsSources(r: Response)
    ensures NoDuplicates(ResponseTags(r))
    ensures forall t :: t in ResponseTags(r) <==>
      (exists i :: 0 <= i < |r.labels| && Confident(r.labels[i].score) && t == Lower(r.labels[i].description))
      || (exists i :: 0 <= i < |r.objects| && Confident(r.objects[i].score) && t == Lower(r.objects[i].name))
  {
    var collected := LabelTags(r.labels) + ObjectTags(r.objects);
    DedupIsOrderedReduction(collected);
    LabelTagsMembers(r.labels);
    ObjectTagsMembers(r.objects);
    var tags := ResponseTags(r);
    forall t ensures t in tags <==> t in collected {
      if t in tags {
        var i :| 0 <= i < |tags| && tags[i] == t;
        assert tags[i] in collected;
      }
      if t in collected {
        var i :| 0 <= i < |collected| && collected[i] == t;
        assert collected[i] in tags;
      }
    }
  }

  /** The standalone tag list and the combined call's tag list differ: a
      landmark alone yields one tag from `detect_objects` and none from the
      combined analysis. */
  lemma TagListsDiverge(landmark: string)
    ensures var r := Response([], [], [Annotation(landmark, 0.9)], [], [], None);
      |Dedup(CollectedTags(r.labels, r.objects, r.landmarks, r.logos))| == 1
      && ResponseTags(r) == []
  {
  }

  // ---------------------------------------------------------------------
  // Alt text

  /** Descriptions of the first (at most) three labels, in the service's
      order. */
  function TopLabelDescriptions(labels: seq<Annotation>): (top: seq<string>)
    ensures |top| == Min(TOP_COUNT, |labels|)
    ensures forall i :: 0 <= i < |top| ==> top[i] == labels[i].description
  {
    var first := labels[..Min(TOP_COUNT, |labels|)];
    seq(|first|, i requires 0 <= i < |first| => first[i].description)
  }

  function LabelSentence(labels: seq<Annotation>): string {
    LABEL_SENTENCE_PREFIX + Join(", ", TopLabelDescriptions(labels))
  }

  /** The sentence fragments `generate_alt_text` collects: the first
      landmark's description, or else the label sentence. */
  function AltTextParts(labels: seq<Annotation>, landmarks: seq<Annotation>): (parts: seq<string>)
    ensures |parts| <= 1
  {
    (if |landmarks| > 0 then [landmarks[0].description] else [])
    + (if |labels| > 0 && |landmarks| == 0 then [LabelSentence(labels)] else [])
  }

  function JoinParts(parts: seq<string>): string {
    if parts != [] then Join(". ", parts) else FALLBACK_ALT_TEXT
  }

  /** `generate_alt_text`: with no client, or when the file read or any of the
      three calls raises, the fallback; otherwise the first landmark's
      description alone, else a sentence naming the first three labels, else
      the fallback. The text annotations are fetched but never read. */
  function GenerateAltText(service: Service, content: Call<seq<bv8>>,
                           labelCall: Call<Response>, landmarkCall: Call<Response>,
                           textCall: Call<Response>): (alt: string)
    ensures !service.hasClient ==> alt == FALLBACK_ALT_TEXT
    ensures content.Raised? || labelCall.Raised? || landmarkCall.Raised? || textCall.Raised? ==>
      alt == FALLBACK_ALT_TEXT
    ensures service.hasClient && content.Returned? && labelCall.Returned? && landmarkCall.Returned?
            && textCall.Returned? ==>
      var labels, landmarks := labelCall.value.labels, landmarkCall.value.landmarks;
      && (|landmarks| > 0 ==> alt == landmarks[0].description)
      && (|landmarks| == 0 && |labels| > 0 ==>
            alt == LABEL_SENTENCE_PREFIX + Join(", ", TopLabelDescriptions(labels)))
      && (|landmarks| == 0 && |labels| == 0 ==> alt == FALLBACK_ALT_TEXT)
  {
    if !service.hasClient then FALLBACK_ALT_TEXT
    else if content.Raised? || labelCall.Raised? || landmarkCall.Raised? || textCall.Raised? then
      FALLBACK_ALT_TEXT
    else
      JoinParts(AltTextParts(labelCall.value.labels, landmarkCall.value.landmarks))
  }

  /** `_build_alt_text_from_response`: the first landmark's description, else
      a sentence naming the first three labels, else the fallback. */
  function BuildAltText(r: Response): (alt: string)
    ensures |r.landmarks| > 0 ==> alt == r.landmarks[0].description
    ensures |r.landmarks| == 0 && |r.labels| > 0 ==>
      alt == LABEL_SENTENCE_PREFIX + Join(", ", TopLabelDescriptions(r.labels))
    ensures |r.landmarks| == 0 && |r.labels| == 0 ==> alt == FALLBACK_ALT_TEXT
  {
    var parts :=
      if |r.landmarks| > 0 then [r.landmarks[0].description]
      else if |r.labels| > 0 then [LabelSentence(r.labels)]
      else [];
    if parts != [] then Join(". ", parts) else FALLBACK_ALT_TEXT
  }

  /** The two alt-text builders agree: whenever the three calls of
      `generate_alt_text` return, its result is what the combined call's
      builder makes of any response carrying the same labels and landmarks,
      whatever text annotations were fetched. */
  lemma AltTextBuildersAgree(content: seq<bv8>, labelResponse: Response,
                             landmarkResponse: Response, textResponse: Response, r: Response)
    requires r.labels == labelResponse.labels && r.landmarks == landmarkResponse.landmarks
    ensures GenerateAltText(Service(true), Returned(content), Returned(labelResponse),
                            Returned(landmarkResponse), Returned(textResponse))
            == BuildAltText(r)
  {
  }

  /** The worked examples: a landmark wins over labels, and only the first
      three labels are named, in the service's order. */
  lemma AltTextExamples(content: seq<bv8>, t: Response)
    ensures var tower := Response([Annotation("tower", 0.9), Annotation("metal", 0.8), Annotation("sky", 0.7)],
                                  [], [Annotation("Eiffel Tower", 0.9)], [], [], None);
      GenerateAltText(Service(true), Returned(content), Returned(tower), Returned(tower), Returned(t))
        == "Eiffel Tower"
      && BuildAltText(tower) == "Eiffel Tower"
    ensures var pets := Response([Annotation("cat", 0.9), Annotation("animal", 0.8),
                                  Annotation("pet", 0.7), Annotation("toy", 0.6)],
                                 [], [], [], [], None);
      GenerateAltText(Service(true), Returned(content), Returned(pets), Returned(pets), Returned(t))
        == "Image containing cat, animal, pet"
      && BuildAltText(pets) == "Image containing cat, animal, pet"
  {
  }

  // ---------------------------------------------------------------------
  // Colours and the combined analysis

  /** `colors` copies, unchanged and in rank order, the first (at most) three
      of the response's dominant colours; it is empty when the response has
      no image-properties annotation. */
  predicate CopiesTopColors(r: Response, colors: seq<ColorEntry>) {
    match r.imageProperties
    case None => colors == []
    case Some(props) =>
      var ranked := props.dominantColors;
      && |colors| == Min(TOP_COUNT, |ranked|)
      && forall i :: 0 <= i < |colors| ==>
           colors[i] == ColorEntry(ranked[i].color.red, ranked[i].color.green,
                                   ranked[i].color.blue, ranked[i].score)
  }

  /** `_extract_colors_from_response`: a loop over the first three dominant
      colours, copying each. */
  method ExtractColors(r: Response) returns (colors: seq<ColorEntry>)
    ensures |colors| <= TOP_COUNT
    ensures CopiesTopColors(r, colors)
  {
    colors := [];
    if r.imageProperties.Some? {
      var ranked := r.imageProperties.value.dominantColors;
      var top := ranked[..Min(TOP_COUNT, |ranked|)];
      for i := 0 to |top|
        invariant |colors| == i
        invariant forall k :: 0 <= k < i ==>
          colors[k] == ColorEntry(top[k].color.red, top[k].color.green, top[k].color.blue, top[k].score)
      {
        var c := top[i];
        colors := colors + [ColorEntry(c.color.red, c.color.green, c.color.blue, c.score)];
      }
    }
  }

  /** `get_detailed_analysis`: one combined call, reduced field by field. With
      no client, or when the file read or the call raises, the degraded record,
      whose colour list sits under `colors` instead of `dominant_colors`. */
  method GetDetailedAnalysis(service: Service, content: Call<seq<bv8>>, call: Call<Response>)
    returns (a: Analysis)
    ensures !service.hasClient || content.Raised? || call.Raised? ==> a == DEGRADED_ANALYSIS
    ensures service.hasClient && content.Returned? && call.Returned? ==>
      var r := call.value;
      && a.altText == BuildAltText(r)
      && a.objects == ResponseTags(r)
      && a.colorsKey == DOMINANT_COLORS_KEY
      && CopiesTopColors(r, a.colors)
      && a.text == (if |r.texts| > 0 then r.texts[0].description else "")
  {
    if !service.hasClient || content.Raised? || call.Raised? {
      return DEGRADED_ANALYSIS;
    }
    var r := call.value;
    var objects := ExtractObjects(r);
    var colors := ExtractColors(r);
    var text := if |r.texts| > 0 then r.texts[0].description else "";
    a := Analysis(BuildAltText(r), objects, DOMINANT_COLORS_KEY, colors, text);
  }
}
