/**
 * The validation schemas of the registry's wire format. Each schema is a
 * parse function from a JavaScript value to the typed record it describes,
 * or to the issue zod reports first: zod checks the properties of an object
 * in the order the schema declares them and the elements of an array in
 * index order, so the first issue is the one of the first failing property
 * or element, found depth first.
 *
 * Four things the schemas rely on are not modelled and are parameters
 * (`Platform`): what `Date.parse` returns, which strings `z.url` accepts,
 * the string `z.url` yields for an accepted one (depending on the zod
 * version, the input itself, the input trimmed, or the normalised URL),
 * and the wording of zod's built-in messages. The messages the schemas
 * themselves give are exact.
 */
module Schemas {
  import opened Wrappers
  import opened JsValues

  const CATEGORIES: seq<string> := ["Observability", "Development Tools", "Frameworks", "Data Management"]
  const STAGES: seq<string> := ["Hold", "Assess", "Trial", "Adopt"]

  type Category = c: string | c in CATEGORIES witness "Observability"
  type Stage = s: string | s in STAGES witness "Hold"

  const INVALID_DATE := "Invalid date"
  const ADR_LINK_NOT_URL := "ADR link must be a valid URL"
  const DETAILS_PAGE_NOT_URL := "Details page must be a valid URL"
  const NAME_REQUIRED := "Technology name is required"

  /** The largest integer zod's `.int()` accepts (`Number.MAX_SAFE_INTEGER`). */
  const MAX_SAFE_INTEGER: int := 0x1F_FFFF_FFFF_FFFF

  datatype PathItem = Key(key: string) | Index(index: nat)

  datatype IssueCode =
    | InvalidType(expected: string)
    | InvalidValue(options: seq<string>)
    | InvalidFormat(format: string)
    | NotInteger
    | OutOfSafeRange
    | TooSmall(minimum: int)
    | Custom

  /** One zod issue: what failed, where, and the message it carries. */
  datatype Issue = Issue(code: IssueCode, path: seq<PathItem>, message: string)

  /** The library behaviour the schemas depend on. */
  datatype Platform = Platform(
    /** `Date.parse`: the time value, or `None` for `NaN`. */
    dateParse: string -> Option<int>,
    /** Whether `z.url()` accepts the string. */
    isUrl: string -> bool,
    /** The string `z.url()` yields for a string it accepts. */
    urlValue: string -> string,
    /** The message zod gives an issue when the schema names none. */
    defaultMessage: IssueCode -> string)

  /** The outcome of `safeParse`, reduced to the first issue. */
  datatype Parsed<+T> = Valid(data: T) | Invalid(issue: Issue) {
    predicate IsFailure() {
      Invalid?
    }

    function PropagateFailure<U>(): Parsed<U>
      requires Invalid?
    {
      Invalid(issue)
    }

    function Extract(): T
      requires Valid?
    {
      data
    }
  }

  /** A URL `z.url()` accepts and yields unchanged: one that is already in the form zod gives back. */
  predicate StableUrl(p: Platform, s: string) {
    p.isUrl(s) && p.urlValue(s) == s
  }

  /** Every URL `z.url()` yields is accepted again and yields itself, as trimming or normalising does. */
  ghost predicate UrlsSettle(p: Platform) {
    forall s :: p.isUrl(s) ==> StableUrl(p, p.urlValue(s))
  }

  /** An issue that carries zod's own message. */
  function Fail<T>(p: Platform, code: IssueCode, path: seq<PathItem>): (r: Parsed<T>)
    ensures r.Invalid? && r.issue == Issue(code, path, p.defaultMessage(code))
  {
    Invalid(Issue(code, path, p.defaultMessage(code)))
  }

  // ---------------------------------------------------------------------------
  // Parsed records

  datatype StageTransition = StageTransition(originalStage: Stage, transitionDate: Date, adrLink: string)

  datatype TechnologyHistory = TechnologyHistory(stageTransitions: seq<StageTransition>, discoveryDate: Date)

  datatype Technology = Technology(
    name: string,
    category: Category,
    stage: Stage,
    tags: seq<string>,
    detailsPage: Option<string>,
    history: TechnologyHistory)

  datatype TechnologyMetadata = TechnologyMetadata(
    totalCount: nat,
    categories: seq<string>,
    stages: seq<string>,
    availableTags: seq<string>)

  datatype GetTechnologiesResponse = GetTechnologiesResponse(
    technologies: seq<Technology>,
    metadata: TechnologyMetadata)

  datatype AddTechnologyRequest = AddTechnologyRequest(
    name: string,
    category: Category,
    stage: Stage,
    tags: seq<string>,
    detailsPage: Option<string>)

  datatype NewStageTransition = NewStageTransition(newStage: Stage, adrLink: string)

  datatype UpdateTechnologyRequest = UpdateTechnologyRequest(
    category: Category,
    tags: seq<string>,
    detailsPage: Option<string>,
    stageTransition: Option<NewStageTransition>)

  // ---------------------------------------------------------------------------
  // Leaf schemas

  /** `z.string()` */
  function ParseString(p: Platform, v: Value, path: seq<PathItem>): (r: Parsed<string>)
    ensures r.Valid? <==> v.Str?
    ensures r.Valid? ==> r.data == v.s
  {
    if v.Str? then Valid(v.s) else Fail(p, InvalidType("string"), path)
  }

  /** `z.string().min(1, 'Technology name is required')`: a blank name of one space passes. */
  function ParseName(p: Platform, v: Value, path: seq<PathItem>): (r: Parsed<string>)
    ensures r.Valid? <==> v.Str? && |v.s| >= 1
    ensures r.Valid? ==> r.data == v.s
    ensures v == Str("") ==> r == Invalid(Issue(TooSmall(1), path, NAME_REQUIRED))
  {
    var s :- ParseString(p, v, path);
    if |s| >= 1 then Valid(s) else Invalid(Issue(TooSmall(1), path, NAME_REQUIRED))
  }

  /** `z.enum(CATEGORIES)` */
  function ParseCategory(p: Platform, v: Value, path: seq<PathItem>): (r: Parsed<Category>)
    ensures r.Valid? <==> v.Str? && v.s in CATEGORIES
    ensures r.Valid? ==> r.data == v.s
  {
    if v.Str? && v.s in CATEGORIES then Valid(v.s) else Fail(p, InvalidValue(CATEGORIES), path)
  }

  /** `z.enum(STAGES)` */
  function ParseStage(p: Platform, v: Value, path: seq<PathItem>): (r: Parsed<Stage>)
    ensures r.Valid? <==> v.Str? && v.s in STAGES
    ensures r.Valid? ==> r.data == v.s
  {
    if v.Str? && v.s in STAGES then Valid(v.s) else Fail(p, InvalidValue(STAGES), path)
  }

  /** `isoDateFormat`: a string `Date.parse` accepts, turned into that `Date`. */
  function ParseIsoDate(p: Platform, v: Value, path: seq<PathItem>): (r: Parsed<Date>)
    ensures r.Valid? <==> v.Str? && p.dateParse(v.s).Some?
    ensures r.Valid? ==> r.data == Date(p.dateParse(v.s).value)
    ensures v.Str? && p.dateParse(v.s).None? ==> r.issue.message == INVALID_DATE
  {
    var s :- ParseString(p, v, path);
    match p.dateParse(s)
    case Some(time) => Valid(Date(time))
    case None => Invalid(Issue(Custom, path, INVALID_DATE))
  }

  /** `z.url({ error: message })`: every issue of this schema carries the given message. */
  function ParseUrl(p: Platform, message: string, v: Value, path: seq<PathItem>): (r: Parsed<string>)
    ensures r.Valid? <==> v.Str? && p.isUrl(v.s)
    ensures r.Valid? ==> r.data == p.urlValue(v.s)
    ensures r.Invalid? ==> r.issue.message == message
  {
    if !v.Str? then Invalid(Issue(InvalidType("string"), path, message))
    else if p.isUrl(v.s) then Valid(p.urlValue(v.s))
    else Invalid(Issue(InvalidFormat("url"), path, message))
  }

  /** `z.url({ error: message }).nullable()` */
  function ParseNullableUrl(p: Platform, message: string, v: Value, path: seq<PathItem>): (r: Parsed<Option<string>>)
    ensures r.Valid? <==> v == Null || (v.Str? && p.isUrl(v.s))
    ensures r.Valid? ==> r.data == if v == Null then None else Some(p.urlValue(v.s))
  {
    if v == Null then Valid(None)
    else
      var url :- ParseUrl(p, message, v, path);
      Valid(Some(url))
  }

  /**
   * The elements of an array from index `from` on, each by the element
   * schema; the first failing element gives the issue.
   */
  function ParseItems<T>(items: seq<Value>, from: nat, path: seq<PathItem>,
                         parse: (Value, seq<PathItem>) -> Parsed<T>): (r: Parsed<seq<T>>)
    requires from <= |items|
    decreases |items| - from
    ensures r.Valid? <==> forall j :: from <= j < |items| ==> parse(items[j], path + [Index(j)]).Valid?
    ensures r.Valid? ==>
      && |r.data| == |items| - from
      && forall j :: from <= j < |items| ==> r.data[j - from] == parse(items[j], path + [Index(j)]).data
    ensures r.Invalid? ==> exists j ::
      && from <= j < |items|
      && (forall k :: from <= k < j ==> parse(items[k], path + [Index(k)]).Valid?)
      && parse(items[j], path + [Index(j)]).Invalid?
      && r.issue == parse(items[j], path + [Index(j)]).issue
  {
    if from == |items| then Valid([])
    else
      var head :- parse(items[from], path + [Index(from)]);
      var tail :- ParseItems(items, from + 1, path, parse);
      Valid([head] + tail)
  }

  /** `z.array(element)` */
  function ParseArray<T>(p: Platform, v: Value, path: seq<PathItem>,
                         parse: (Value, seq<PathItem>) -> Parsed<T>): (r: Parsed<seq<T>>)
    ensures r.Valid? <==> v.Array? && forall j :: 0 <= j < |v.items| ==> parse(v.items[j], path + [Index(j)]).Valid?
    ensures r.Valid? ==>
      && |r.data| == |v.items|
      && forall j :: 0 <= j < |v.items| ==> r.data[j] == parse(v.items[j], path + [Index(j)]).data
  {
    if v.Array? then ParseItems(v.items, 0, path, parse) else Fail(p, InvalidType("array"), path)
  }

  /** `z.array(z.string())` */
  function ParseStrings(p: Platform, v: Value, path: seq<PathItem>): (r: Parsed<seq<string>>)
    ensures r.Valid? <==> v.Array? && forall j :: 0 <= j < |v.items| ==> v.items[j].Str?
    ensures r.Valid? ==> |r.data| == |v.items| && forall j :: 0 <= j < |v.items| ==> r.data[j] == v.items[j].s
  {
    ParseArray(p, v, path, (x, q) => ParseString(p, x, q))
  }

  /** An array of strings passes `z.array(z.string())` and reads back as the same strings. */
  lemma StringArrayParses(p: Platform, ss: seq<string>, path: seq<PathItem>)
    ensures ParseStrings(p, StringArray(ss), path) == Valid(ss)
  {
    var r := ParseStrings(p, StringArray(ss), path);
    assert r.Valid?;
    assert r.data == ss;
  }

  /** `z.number().int().min(0)`: a safe integer that is not negative. */
  function ParseCount(p: Platform, v: Value, path: seq<PathItem>): (r: Parsed<nat>)
    ensures r.Valid? <==> v.Number? && IsInteger(v.n) && 0 <= v.n.Floor <= MAX_SAFE_INTEGER
    ensures r.Valid? ==> r.data as real == v.n
  {
    if !v.Number? then Fail(p, InvalidType("number"), path)
    else if !IsInteger(v.n) then Fail(p, NotInteger, path)
    else if v.n.Floor > MAX_SAFE_INTEGER || v.n.Floor < -MAX_SAFE_INTEGER then Fail(p, OutOfSafeRange, path)
    else if v.n.Floor < 0 then Fail(p, TooSmall(0), path)
    else Valid(v.n.Floor)
  }

  /** The check every `z.object` makes before reading properties. */
  function ParseObject(p: Platform, v: Value, path: seq<PathItem>): (r: Parsed<()>)
    ensures r.Valid? <==> IsObjectLike(v)
  {
    if IsObjectLike(v) then Valid(()) else Fail(p, InvalidType("object"), path)
  }

  // ---------------------------------------------------------------------------
  // Object schemas

  /** `StageTransitionSchema` */
  function ParseStageTransition(p: Platform, v: Value, path: seq<PathItem>): (r: Parsed<StageTransition>)
    ensures r.Valid? <==>
      && IsObjectLike(v)
      && Get(v, "originalStage").Str? && Get(v, "originalStage").s in STAGES
      && Get(v, "transitionDate").Str? && p.dateParse(Get(v, "transitionDate").s).Some?
      && Get(v, "adrLink").Str? && p.isUrl(Get(v, "adrLink").s)
    ensures r.Valid? ==> r.data == StageTransition(
      Get(v, "originalStage").s,
      Date(p.dateParse(Get(v, "transitionDate").s).value),
      p.urlValue(Get(v, "adrLink").s))
  {
    var _ :- ParseObject(p, v, path);
    var originalStage :- ParseStage(p, Get(v, "originalStage"), path + [Key("originalStage")]);
    var transitionDate :- ParseIsoDate(p, Get(v, "transitionDate"), path + [Key("transitionDate")]);
    var adrLink :- ParseUrl(p, ADR_LINK_NOT_URL, Get(v, "adrLink"), path + [Key("adrLink")]);
    Valid(StageTransition(originalStage, transitionDate, adrLink))
  }

  /** `TechnologyHistorySchema` */
  function ParseHistory(p: Platform, v: Value, path: seq<PathItem>): (r: Parsed<TechnologyHistory>)
    ensures r.Valid? <==>
      && IsObjectLike(v)
      && Get(v, "stageTransitions").Array?
      && (forall j :: 0 <= j < |Get(v, "stageTransitions").items| ==>
            ParseStageTransition(p, Get(v, "stageTransitions").items[j], path + [Key("stageTransitions")] + [Index(j)]).Valid?)
      && Get(v, "discoveryDate").Str? && p.dateParse(Get(v, "discoveryDate").s).Some?
    ensures r.Valid? ==>
      && |r.data.stageTransitions| == |Get(v, "stageTransitions").items|
      && (forall j :: 0 <= j < |r.data.stageTransitions| ==>
            r.data.stageTransitions[j] ==
              ParseStageTransition(p, Get(v, "stageTransitions").items[j], path + [Key("stageTransitions")] + [Index(j)]).data)
      && r.data.discoveryDate == Date(p.dateParse(Get(v, "discoveryDate").s).value)
  {
    var _ :- ParseObject(p, v, path);
    var q := path + [Key("stageTransitions")];
    var transitions :- ParseArray(p, Get(v, "stageTransitions"), q, (x, q') => ParseStageTransition(p, x, q'));
    var discoveryDate :- ParseIsoDate(p, Get(v, "discoveryDate"), path + [Key("discoveryDate")]);
    Valid(TechnologyHistory(transitions, discoveryDate))
  }

  /** `TechnologySchema`: a name of at least one character, enumerated category and stage, string tags, a nullable URL and a valid history. */
  function ParseTechnology(p: Platform, v: Value, path: seq<PathItem>): (r: Parsed<Technology>)
    ensures r.Valid? <==>
      && IsObjectLike(v)
      && Get(v, "name").Str? && |Get(v, "name").s| >= 1
      && Get(v, "category").Str? && Get(v, "category").s in CATEGORIES
      && Get(v, "stage").Str? && Get(v, "stage").s in STAGES
      && ParseStrings(p, Get(v, "tags"), path + [Key("tags")]).Valid?
      && (Get(v, "detailsPage") == Null || (Get(v, "detailsPage").Str? && p.isUrl(Get(v, "detailsPage").s)))
      && ParseHistory(p, Get(v, "history"), path + [Key("history")]).Valid?
    ensures r.Valid? ==>
      && r.data.name == Get(v, "name").s
      && r.data.category == Get(v, "category").s
      && r.data.stage == Get(v, "stage").s
      && r.data.tags == ParseStrings(p, Get(v, "tags"), path + [Key("tags")]).data
      && r.data.detailsPage == (if Get(v, "detailsPage") == Null then None else Some(p.urlValue(Get(v, "detailsPage").s)))
      && r.data.history == ParseHistory(p, Get(v, "history"), path + [Key("history")]).data
  {
    var _ :- ParseObject(p, v, path);
    var name :- ParseName(p, Get(v, "name"), path + [Key("name")]);
    var category :- ParseCategory(p, Get(v, "category"), path + [Key("category")]);
    var stage :- ParseStage(p, Get(v, "stage"), path + [Key("stage")]);
    var tags :- ParseStrings(p, Get(v, "tags"), path + [Key("tags")]);
    var detailsPage :- ParseNullableUrl(p, DETAILS_PAGE_NOT_URL, Get(v, "detailsPage"), path + [Key("detailsPage")]);
    var history :- ParseHistory(p, Get(v, "history"), path + [Key("history")]);
    Valid(Technology(name, category, stage, tags, detailsPage, history))
  }

  /** `TechnologyMetadataSchema`: the listed categories, stages and tags are free strings. */
  function ParseMetadata(p: Platform, v: Value, path: seq<PathItem>): (r: Parsed<TechnologyMetadata>)
    ensures r.Valid? <==>
      && IsObjectLike(v)
      && ParseCount(p, Get(v, "total_count"), path + [Key("total_count")]).Valid?
      && ParseStrings(p, Get(v, "categories"), path + [Key("categories")]).Valid?
      && ParseStrings(p, Get(v, "stages"), path + [Key("stages")]).Valid?
      && ParseStrings(p, Get(v, "available_tags"), path + [Key("available_tags")]).Valid?
    ensures r.Valid? ==> r.data.totalCount as real == Get(v, "total_count").n
    ensures r.Valid? ==> r.data.categories == ParseStrings(p, Get(v, "categories"), path + [Key("categories")]).data
    ensures r.Valid? ==> r.data.stages == ParseStrings(p, Get(v, "stages"), path + [Key("stages")]).data
    ensures r.Valid? ==>
      r.data.availableTags == ParseStrings(p, Get(v, "available_tags"), path + [Key("available_tags")]).data
  {
    var _ :- ParseObject(p, v, path);
    var totalCount :- ParseCount(p, Get(v, "total_count"), path + [Key("total_count")]);
    var categories :- ParseStrings(p, Get(v, "categories"), path + [Key("categories")]);
    var stages :- ParseStrings(p, Get(v, "stages"), path + [Key("stages")]);
    var availableTags :- ParseStrings(p, Get(v, "available_tags"), path + [Key("available_tags")]);
    Valid(TechnologyMetadata(totalCount, categories, stages, availableTags))
  }

  /** `GetTechnologiesResponseSchema`: `total_count` is not compared with the list. */
  function ParseGetTechnologiesResponse(p: Platform, v: Value, path: seq<PathItem>): (r: Parsed<GetTechnologiesResponse>)
    ensures r.Valid? <==>
      && IsObjectLike(v)
      && Get(v, "technologies").Array?
      && (forall j :: 0 <= j < |Get(v, "technologies").items| ==>
            ParseTechnology(p, Get(v, "technologies").items[j], path + [Key("technologies")] + [Index(j)]).Valid?)
      && ParseMetadata(p, Get(v, "metadata"), path + [Key("metadata")]).Valid?
    ensures r.Valid? ==>
      && |r.data.technologies| == |Get(v, "technologies").items|
      && (forall j :: 0 <= j < |r.data.technologies| ==>
            r.data.technologies[j] == ParseTechnology(p, Get(v, "technologies").items[j], path + [Key("technologies")] + [Index(j)]).data)
      && r.data.metadata == ParseMetadata(p, Get(v, "metadata"), path + [Key("metadata")]).data
  {
    var _ :- ParseObject(p, v, path);
    var q := path + [Key("technologies")];
    var technologies :- ParseArray(p, Get(v, "technologies"), q, (x, q') => ParseTechnology(p, x, q'));
    var metadata :- ParseMetadata(p, Get(v, "metadata"), path + [Key("metadata")]);
    Valid(GetTechnologiesResponse(technologies, metadata))
  }

  /** `AddTechnologyRequestSchema`: omitted tags become `[]`, an omitted details page `null`. */
  function ParseAddTechnologyRequest(p: Platform, v: Value, path: seq<PathItem>): (r: Parsed<AddTechnologyRequest>)
    ensures r.Valid? <==>
      && IsObjectLike(v)
      && Get(v, "name").Str? && |Get(v, "name").s| >= 1
      && Get(v, "category").Str? && Get(v, "category").s in CATEGORIES
      && Get(v, "stage").Str? && Get(v, "stage").s in STAGES
      && (Get(v, "tags") == Undefined || ParseStrings(p, Get(v, "tags"), path + [Key("tags")]).Valid?)
      && (Get(v, "detailsPage") in {Undefined, Null} || (Get(v, "detailsPage").Str? && p.isUrl(Get(v, "detailsPage").s)))
    ensures r.Valid? ==>
      && r.data.name == Get(v, "name").s
      && r.data.category == Get(v, "category").s
      && r.data.stage == Get(v, "stage").s
      && r.data.tags == (if Get(v, "tags") == Undefined then [] else ParseStrings(p, Get(v, "tags"), path + [Key("tags")]).data)
      && r.data.detailsPage == (if Get(v, "detailsPage") in {Undefined, Null} then None else Some(p.urlValue(Get(v, "detailsPage").s)))
  {
    var _ :- ParseObject(p, v, path);
    var name :- ParseName(p, Get(v, "name"), path + [Key("name")]);
    var category :- ParseCategory(p, Get(v, "category"), path + [Key("category")]);
    var stage :- ParseStage(p, Get(v, "stage"), path + [Key("stage")]);
    var tags :-
      if Get(v, "tags") == Undefined then Valid([])
      else ParseStrings(p, Get(v, "tags"), path + [Key("tags")]);
    var detailsPage :-
      if Get(v, "detailsPage") == Undefined then Valid(None)
      else ParseNullableUrl(p, DETAILS_PAGE_NOT_URL, Get(v, "detailsPage"), path + [Key("detailsPage")]);
    Valid(AddTechnologyRequest(name, category, stage, tags, detailsPage))
  }

  /** `NewStageTransitionSchema` */
  function ParseNewStageTransition(p: Platform, v: Value, path: seq<PathItem>): (r: Parsed<NewStageTransition>)
    ensures r.Valid? <==>
      && IsObjectLike(v)
      && Get(v, "newStage").Str? && Get(v, "newStage").s in STAGES
      && Get(v, "adrLink").Str? && p.isUrl(Get(v, "adrLink").s)
    ensures r.Valid? ==> r.data == NewStageTransition(Get(v, "newStage").s, p.urlValue(Get(v, "adrLink").s))
  {
    var _ :- ParseObject(p, v, path);
    var newStage :- ParseStage(p, Get(v, "newStage"), path + [Key("newStage")]);
    var adrLink :- ParseUrl(p, ADR_LINK_NOT_URL, Get(v, "adrLink"), path + [Key("adrLink")]);
    Valid(NewStageTransition(newStage, adrLink))
  }

  /** `UpdateTechnologyRequestSchema`: the stage transition is `null` or a valid new stage and ADR link. */
  function ParseUpdateTechnologyRequest(p: Platform, v: Value, path: seq<PathItem>): (r: Parsed<UpdateTechnologyRequest>)
    ensures r.Valid? <==>
      && IsObjectLike(v)
      && Get(v, "category").Str? && Get(v, "category").s in CATEGORIES
      && ParseStrings(p, Get(v, "tags"), path + [Key("tags")]).Valid?
      && (Get(v, "detailsPage") == Null || (Get(v, "detailsPage").Str? && p.isUrl(Get(v, "detailsPage").s)))
      && (Get(v, "stageTransition") == Null ||
          ParseNewStageTransition(p, Get(v, "stageTransition"), path + [Key("stageTransition")]).Valid?)
    ensures r.Valid? ==>
      && r.data.category == Get(v, "category").s
      && r.data.tags == ParseStrings(p, Get(v, "tags"), path + [Key("tags")]).data
      && r.data.detailsPage == (if Get(v, "detailsPage") == Null then None else Some(p.urlValue(Get(v, "detailsPage").s)))
      && r.data.stageTransition == (if Get(v, "stageTransition") == Null then None
           else Some(ParseNewStageTransition(p, Get(v, "stageTransition"), path + [Key("stageTransition")]).data))
  {
    var _ :- ParseObject(p, v, path);
    var category :- ParseCategory(p, Get(v, "category"), path + [Key("category")]);
    var tags :- ParseStrings(p, Get(v, "tags"), path + [Key("tags")]);
    var detailsPage :- ParseNullableUrl(p, DETAILS_PAGE_NOT_URL, Get(v, "detailsPage"), path + [Key("detailsPage")]);
    var stageTransition :-
      if Get(v, "stageTransition") == Null then Valid(None)
      else
        var t :- ParseNewStageTransition(p, Get(v, "stageTransition"), path + [Key("stageTransition")]);
        Valid(Some(t));
    Valid(UpdateTechnologyRequest(category, tags, detailsPage, stageTransition))
  }

  // ---------------------------------------------------------------------------
  // Properties of the schemas

  /** Only the four categories and the four stages pass; every other string is rejected with its enum issue. */
  lemma EnumsAreClosed(p: Platform, s: string, path: seq<PathItem>)
    ensures ParseCategory(p, Str(s), path).Valid? <==> s in ["Observability", "Development Tools", "Frameworks", "Data Management"]
    ensures ParseStage(p, Str(s), path).Valid? <==> s in ["Hold", "Assess", "Trial", "Adopt"]
    ensures s !in STAGES ==> ParseStage(p, Str(s), path).issue.code == InvalidValue(STAGES)
  {
  }

  /** A name of one space passes: the name schema only asks for at least one character. */
  lemma WhitespaceNamePasses(p: Platform, path: seq<PathItem>)
    ensures ParseName(p, Str(" "), path) == Valid(" ")
  {
  }

  /**
   * An empty technology list is accepted with any valid metadata: the
   * response schema never compares `total_count` with the list.
   */
  lemma EmptyListAccepted(p: Platform, v: Value, path: seq<PathItem>)
    requires v.Object? && Get(v, "technologies") == Array([])
    requires ParseMetadata(p, Get(v, "metadata"), path + [Key("metadata")]).Valid?
    ensures ParseGetTechnologiesResponse(p, v, path).Valid?
    ensures ParseGetTechnologiesResponse(p, v, path).data.technologies == []
    ensures ParseGetTechnologiesResponse(p, v, path).data.metadata.totalCount as real ==
      Get(Get(v, "metadata"), "total_count").n
  {
  }

  /** An add request that omits tags and the details page gets `[]` and `null`. */
  lemma AddRequestDefaults(p: Platform, v: Value, path: seq<PathItem>)
    requires v.Object? && Get(v, "tags") == Undefined && Get(v, "detailsPage") == Undefined
    requires Get(v, "name").Str? && |Get(v, "name").s| >= 1
    requires Get(v, "category").Str? && Get(v, "category").s in CATEGORIES
    requires Get(v, "stage").Str? && Get(v, "stage").s in STAGES
    ensures ParseAddTechnologyRequest(p, v, path) ==
      Valid(AddTechnologyRequest(Get(v, "name").s, Get(v, "category").s, Get(v, "stage").s, [], None))
  {
  }

  /** A stage transition with an unknown new stage rejects the whole update request. */
  lemma InvalidNewStageRejectsUpdate(p: Platform, v: Value, path: seq<PathItem>)
    requires Get(v, "stageTransition").Object?
    requires var t := Get(v, "stageTransition"); !(Get(t, "newStage").Str? && Get(t, "newStage").s in STAGES)
    ensures ParseUpdateTechnologyRequest(p, v, path).Invalid?
  {
  }
}
