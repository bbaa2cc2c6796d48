/**
 * The question-of-the-day client: what it makes of the endpoint's answer.
 * The POST, the HTTP status check and JSON decoding are effects; their
 * outcome is the input `Response`. From a decoded body the client looks up
 * `data.activeDailyCodingChallengeQuestion`, copies four fields, builds the
 * absolute link, and turns every failure into a message.
 */
module LeetCode {
  import opened Wrappers
  import opened PyJson

  const BaseUrl := "https://leetcode.com"
  const DataKey := "data"
  const DailyKey := "activeDailyCodingChallengeQuestion"

  const NotFoundMessage := "Could not find the daily question in the API response."
  const RequestErrorPrefix := "Error fetching from LeetCode API: "
  const DecodeErrorPrefix := "Error decoding JSON response: "
  const UnexpectedErrorPrefix := "An unexpected error occurred: "

  /** The record the client returns on success. */
  datatype Question = Question(date: Json, title: Json, link: string, difficulty: Json, questionId: Json)

  /** What the POST and `response.json()` produced. */
  datatype Response =
    | RequestFailed(reason: string)   // transport error or a bad HTTP status
    | Undecodable(reason: string)     // the body is not JSON
    | Decoded(body: Json)

  /** What the lookups in the decoded body come to. */
  datatype Extraction = Found(question: Question) | NotInResponse | Raised(exception: PyException)

  /** The lookups inside the daily-question object, in the order the client makes them. */
  function ReadQuestion(daily: Json): Result<Question, PyException> {
    var date :- Subscript(daily, "date");
    var relative :- Subscript(daily, "link");
    var link :- ConcatStr(BaseUrl, relative);
    // `daily_question["question"]` is evaluated three times; each gives the same value
    var question :- Subscript(daily, "question");
    var title :- Subscript(question, "title");
    var difficulty :- Subscript(question, "difficulty");
    var questionId :- Subscript(question, "frontendQuestionId");
    Success(Question(date, title, link, difficulty, questionId))
  }

  /** The guard on the two outer keys, then the field lookups. */
  function Extract(body: Json): Extraction {
    match Contains(body, DataKey)
    case Failure(e) => Raised(e)
    case Success(hasData) =>
      if !hasData then NotInResponse
      else match Subscript(body, DataKey)
        case Failure(e) => Raised(e)
        case Success(inner) =>
          match Contains(inner, DailyKey)
          case Failure(e) => Raised(e)
          case Success(hasDaily) =>
            if !hasDaily then NotInResponse
            else match Subscript(inner, DailyKey)
              case Failure(e) => Raised(e)
              case Success(daily) =>
                match ReadQuestion(daily)
                case Success(q) => Found(q)
                case Failure(e) => Raised(e)
  }

  /**
   * The client's pair `(question_info, error)`: exactly one side is present.
   */
  function GetDailyQuestion(response: Response): (r: (Option<Question>, Option<string>))
    ensures r.0.None? <==> r.1.Some?
  {
    match response
    case RequestFailed(reason) => (None, Some(RequestErrorPrefix + reason))
    case Undecodable(reason) => (None, Some(DecodeErrorPrefix + reason))
    case Decoded(body) =>
      match Extract(body)
      case Found(q) => (Some(q), None)
      case NotInResponse => (None, Some(NotFoundMessage))
      case Raised(e) => (None, Some(UnexpectedErrorPrefix + Describe(e)))
  }

  /** The record side is present exactly when the body was decoded and every lookup succeeded. */
  lemma RecordIffFound(response: Response)
    ensures GetDailyQuestion(response).0.Some? <==> response.Decoded? && Extract(response.body).Found?
    ensures GetDailyQuestion(response).0.Some? ==> GetDailyQuestion(response).0.value == Extract(response.body).question
  {
  }

  // ---------------------------------------------------------------------
  // The expected shape of a response, stated independently of the lookups.

  /** `data.activeDailyCodingChallengeQuestion` is present through two objects. */
  predicate HasDaily(body: Json) {
    && body.JObj? && DataKey in body.fields
    && body.fields[DataKey].JObj? && DailyKey in body.fields[DataKey].fields
  }

  function Daily(body: Json): Json
    requires HasDaily(body)
  {
    body.fields[DataKey].fields[DailyKey]
  }

  /** The daily object carries a date, a string link and a question object with its three fields. */
  predicate WellFormedDaily(daily: Json) {
    && daily.JObj?
    && "date" in daily.fields
    && "link" in daily.fields && daily.fields["link"].JStr?
    && "question" in daily.fields
    && var q := daily.fields["question"];
       && q.JObj?
       && "title" in q.fields
       && "difficulty" in q.fields
       && "frontendQuestionId" in q.fields
  }

  predicate WellFormed(body: Json) {
    HasDaily(body) && WellFormedDaily(Daily(body))
  }

  /** The record a well-formed body should yield. */
  function Expected(body: Json): Question
    requires WellFormed(body)
  {
    var daily := Daily(body).fields;
    var q := daily["question"].fields;
    Question(daily["date"], q["title"], BaseUrl + daily["link"].s, q["difficulty"], q["frontendQuestionId"])
  }

  /**
   * The client succeeds exactly on well-formed bodies; then the link is the
   * base URL followed by the relative link and the other four fields are
   * copied from `date` and from the nested question object.
   */
  lemma ExtractSucceedsIffWellFormed(body: Json)
    ensures Extract(body).Found? <==> WellFormed(body)
    ensures WellFormed(body) ==> Extract(body) == Found(Expected(body))
    ensures WellFormed(body) ==>
      GetDailyQuestion(Decoded(body)) == (Some(Expected(body)), None)
      && Expected(body).link == BaseUrl + Daily(body).fields["link"].s
  {
  }

  /**
   * The client as a whole: a record comes back exactly when the body was
   * decoded and has the expected shape, and it is then the expected record.
   */
  lemma {:induction false} RecordIffWellFormed(response: Response)
    ensures GetDailyQuestion(response).0.Some? <==> response.Decoded? && WellFormed(response.body)
    ensures GetDailyQuestion(response).0.Some? ==> GetDailyQuestion(response).0.value == Expected(response.body)
  {
    RecordIffFound(response);
    if response.Decoded? {
      ExtractSucceedsIffWellFormed(response.body);
    }
  }

  /** A dictionary without `data`, or whose `data` dictionary lacks the daily key, is reported as not found. */
  lemma MissingOuterKeys(body: Json)
    requires body.JObj?
    requires DataKey !in body.fields
             || (body.fields[DataKey].JObj? && DailyKey !in body.fields[DataKey].fields)
    ensures GetDailyQuestion(Decoded(body)) == (None, Some(NotFoundMessage))
  {
  }

  /**
   * Once both outer keys are present, any other shape fault surfaces through the
   * catch-all handler.
   */
  lemma NestedFaultIsUnexpected(body: Json)
    requires HasDaily(body) && !WellFormedDaily(Daily(body))
    ensures Extract(body).Raised?
    ensures StartsWith(GetDailyQuestion(Decoded(body)).1.value, UnexpectedErrorPrefix)
  {
  }

  predicate StartsWith(s: string, prefix: string) {
    |prefix| <= |s| && s[..|prefix|] == prefix
  }

  /** Transport and decoding failures are told apart by their message prefixes. */
  lemma FailureMessages(reason: string)
    ensures StartsWith(GetDailyQuestion(RequestFailed(reason)).1.value, RequestErrorPrefix)
    ensures StartsWith(GetDailyQuestion(Undecodable(reason)).1.value, DecodeErrorPrefix)
  {
  }

  /** The question object, the daily object and the full response for the "Two Sum" problem. */
  function TwoSumQuestion(): Json {
    JObj(map["title" := JStr("Two Sum"), "difficulty" := JStr("Easy"), "frontendQuestionId" := JStr("1")])
  }

  function TwoSumDaily(): Json {
    JObj(map["date" := JStr("2024-01-01"), "link" := JStr("/problems/two-sum/"), "question" := TwoSumQuestion()])
  }

  function TwoSumResponse(): Json {
    JObj(map[DataKey := JObj(map[DailyKey := TwoSumDaily()])])
  }

  /** The record the "Two Sum" response should yield. */
  function TwoSumRecord(): Question {
    Question(JStr("2024-01-01"), JStr("Two Sum"), "https://leetcode.com/problems/two-sum/", JStr("Easy"), JStr("1"))
  }

  /** The "Two Sum" response has the expected shape, and the expected record is the one above. */
  lemma TwoSumWellFormed()
    ensures WellFormed(TwoSumResponse()) && Expected(TwoSumResponse()) == TwoSumRecord()
  {
    assert HasDaily(TwoSumResponse()) && Daily(TwoSumResponse()) == TwoSumDaily();
    assert WellFormedDaily(TwoSumDaily());
    assert BaseUrl + "/problems/two-sum/" == "https://leetcode.com/problems/two-sum/";
  }

  /** The client's record for the "Two Sum" response. */
  lemma TwoSumExtracted()
    ensures GetDailyQuestion(Decoded(TwoSumResponse())) == (Some(TwoSumRecord()), None)
  {
    TwoSumWellFormed();
    ExtractSucceedsIffWellFormed(TwoSumResponse());
  }
}
