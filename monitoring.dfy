/**
 * The monitoring state and the workflow's node functions. Each node reads the
 * state and yields it with a few fields updated, as the graph merges a node's
 * returned dictionary into the state. Effects are inputs: the fetch outcome,
 * the generated body, the mail result and the clock reading (seconds).
 */
module Monitoring {
  import opened Wrappers
  import opened PyJson
  import LeetCode

  /** The cooldown between two notification emails: two hours, in seconds. */
  const Cooldown: int := 2 * 60 * 60

  const Open := "open"
  const Solved := "solved"
  const Error := "error"
  const Unknown := "unknown"

  const SubjectPrefix := "LeetCode: "
  const Absent := "N/A"
  const DefaultSubject := "LeetCode Update"
  const DefaultBody := "Check the LeetCode problem."

  /**
   * The workflow's state. `data` is None for the empty dictionary. Fields the
   * workflow reads with a default are Options, None meaning the key is absent.
   * `emailSent` records the send node's result (its key is not declared in the
   * state's type; see README).
   */
  datatype MonitoringState = MonitoringState(
    data: Option<LeetCode.Question>,
    title: Option<Json>,
    difficulty: Option<Json>,
    titleSlug: string,
    status: string,
    shouldSend: bool,
    subject: Option<string>,
    body: Option<string>,
    lastEmailTime: Option<int>,
    emailSent: Option<bool>)

  /** A message handed to the mailer. */
  datatype Mail = Mail(subject: string, body: string)

  /** The state every workflow run starts from. */
  function Initial(): (s: MonitoringState)
    ensures s.status == Unknown && !s.shouldSend && s.lastEmailTime.None?
    ensures s.title == Some(JStr("")) && s.difficulty == Some(JStr(""))
  {
    MonitoringState(None, Some(JStr("")), Some(JStr("")), "", Unknown, false, Some(""), Some(""), None, None)
  }

  /** Fetch node: a record opens the question; a failure marks the state as an error. */
  function FetchNode(s: MonitoringState, fetched: (Option<LeetCode.Question>, Option<string>)): (r: MonitoringState)
    ensures r.status == Open || r.status == Error
    ensures r.status == Open <==> fetched.0.Some?
    ensures fetched.0.Some? ==>
      r.data == fetched.0 && r.title == Some(fetched.0.value.title) && r.difficulty == Some(fetched.0.value.difficulty)
    ensures fetched.0.None? ==>
      r.data.None? && r.title == Some(JStr("Error")) && r.difficulty == Some(JStr("Error"))
    ensures r.lastEmailTime == s.lastEmailTime && r.shouldSend == s.shouldSend
    ensures r.titleSlug == s.titleSlug && r.subject == s.subject && r.body == s.body && r.emailSent == s.emailSent
  {
    match fetched.0
    case Some(q) =>
      s.(data := Some(q), title := Some(q.title), difficulty := Some(q.difficulty), status := Open)
    case None =>
      s.(data := None, title := Some(JStr("Error")), difficulty := Some(JStr("Error")), status := Error)
  }

  /**
   * Decide node: send only for an open question, and only the first time or
   * once the cooldown has fully elapsed (the boundary itself sends).
   */
  function DecideNode(s: MonitoringState, now: int): (r: MonitoringState)
    ensures r == s.(shouldSend := r.shouldSend)
    ensures s.status != Open ==> !r.shouldSend
    ensures s.status == Open && s.lastEmailTime.None? ==> r.shouldSend
    ensures s.status == Open && s.lastEmailTime.Some? ==>
      (r.shouldSend <==> now - s.lastEmailTime.value >= Cooldown)
  {
    if s.status == Solved then s.(shouldSend := false)
    else if s.status != Open then s.(shouldSend := false)
    else if s.lastEmailTime.None? || now - s.lastEmailTime.value >= Cooldown then s.(shouldSend := true)
    else s.(shouldSend := false)
  }

  /** The text an f-string gives for a field read with the default "N/A". */
  function FieldText(field: Option<Json>): string {
    match field
    case None => Absent
    case Some(v) => Str(v)
  }

  function SubjectLine(title: Option<Json>, difficulty: Option<Json>): string {
    SubjectPrefix + FieldText(title) + " (" + FieldText(difficulty) + ")"
  }

  /** Subject node: fills in the subject template and touches nothing else. */
  function SubjectNode(s: MonitoringState): (r: MonitoringState)
    ensures r == s.(subject := Some(SubjectLine(s.title, s.difficulty)))
  {
    s.(subject := Some(SubjectLine(s.title, s.difficulty)))
  }

  /**
   * The subject the subject node writes splits back at its last " (": into the
   * title text and the difficulty text, whenever the latter has no " (".
   */
  lemma SubjectNodeSplits(s: MonitoringState)
    ensures SplitSubject(SubjectNode(s).subject.value).Some?
    ensures NoOpenParen(FieldText(s.difficulty)) ==>
      SplitSubject(SubjectNode(s).subject.value) == Some((FieldText(s.title), FieldText(s.difficulty)))
  {
    SubjectRoundTrip(FieldText(s.title), FieldText(s.difficulty));
  }

  /** Body node: stores the generated text, already trimmed. */
  function BodyNode(s: MonitoringState, generated: string): (r: MonitoringState)
    ensures r == s.(body := Some(generated))
  {
    s.(body := Some(generated))
  }

  /** What the send node hands to the mailer, with its defaults for absent keys. */
  function Outgoing(s: MonitoringState): (m: Mail)
    ensures s.subject.Some? ==> m.subject == s.subject.value
    ensures s.subject.None? ==> m.subject == DefaultSubject
    ensures s.body.Some? ==> m.body == s.body.value
    ensures s.body.None? ==> m.body == DefaultBody
  {
    Mail(s.subject.GetOr(DefaultSubject), s.body.GetOr(DefaultBody))
  }

  /** Send node: records the mailer's result, whatever it is. */
  function SendNode(s: MonitoringState, delivered: bool): (r: MonitoringState)
    ensures r == s.(emailSent := Some(delivered))
  {
    s.(emailSent := Some(delivered))
  }

  /** Timestamp node: records the current time as the last email time. */
  function UpdateTimeNode(s: MonitoringState, now: int): (r: MonitoringState)
    ensures r == s.(lastEmailTime := Some(now))
  {
    s.(lastEmailTime := Some(now))
  }

  /** The status the timestamp node's edge tests to end the run. */
  predicate IsSolved(s: MonitoringState) {
    s.status == Solved
  }

  /** The FetchInfo edge's test on the title: present and truthy. */
  predicate HasTitle(s: MonitoringState) {
    s.title.Some? && Truthy(s.title.value)
  }

  // ---------------------------------------------------------------------
  // Reading a subject line back: the template is invertible whenever the
  // difficulty text does not itself contain " (".

  predicate OpenAt(s: string, k: nat)
    requires k + 1 < |s|
  {
    s[k] == ' ' && s[k + 1] == '('
  }

  predicate NoOpenParen(s: string) {
    forall k: nat :: k + 1 < |s| ==> !OpenAt(s, k)
  }

  /** The position of the last " (" in `s`. */
  function LastOpen(s: string): (r: Option<nat>)
    ensures r.Some? ==> r.value + 1 < |s| && OpenAt(s, r.value)
    ensures r.Some? ==> forall k: nat :: r.value < k && k + 1 < |s| ==> !OpenAt(s, k)
    ensures r.None? ==> NoOpenParen(s)
    decreases |s|
  {
    if |s| < 2 then None
    else if OpenAt(s, |s| - 2) then Some(|s| - 2)
    else
      var prefix := s[..|s| - 1];
      var r := LastOpen(prefix);
      assert forall k: nat :: k + 1 < |prefix| ==> (OpenAt(prefix, k) <==> OpenAt(s, k));
      r
  }

  /** The title and difficulty texts of a subject line, if it has the template's shape. */
  function SplitSubject(line: string): Option<(string, string)> {
    if |line| < |SubjectPrefix| + 1 || line[..|SubjectPrefix|] != SubjectPrefix || line[|line| - 1] != ')' then None
    else
      var inner := line[|SubjectPrefix|..|line| - 1];
      match LastOpen(inner)
      case None => None
      case Some(i) => Some((inner[..i], inner[i + 2..]))
  }

  lemma {:induction false} SubjectRoundTrip(title: string, difficulty: string)
    ensures SplitSubject(SubjectPrefix + title + " (" + difficulty + ")").Some?
    ensures NoOpenParen(difficulty) ==>
      SplitSubject(SubjectPrefix + title + " (" + difficulty + ")") == Some((title, difficulty))
  {
    var line := SubjectPrefix + title + " (" + difficulty + ")";
    var inner := title + " (" + difficulty;
    assert line[..|SubjectPrefix|] == SubjectPrefix;
    assert line[|SubjectPrefix|..|line| - 1] == inner;
    assert OpenAt(inner, |title|);
    if NoOpenParen(difficulty) {
      forall k: nat | |title| < k && k + 1 < |inner|
        ensures !OpenAt(inner, k)
      {
        if k > |title| + 1 {
          assert inner[k] == difficulty[k - |title| - 2];
          assert inner[k + 1] == difficulty[k - |title| - 1];
          assert !OpenAt(difficulty, k - |title| - 2);
        }
      }
      var i := LastOpen(inner).value;
      assert i == |title|;
      assert inner[..i] == title;
      assert inner[i + 2..] == difficulty;
    }
  }

  /** At the cooldown boundary the email goes out; one second earlier it does not. */
  lemma CooldownBoundary(s: MonitoringState, last: int)
    requires s.status == Open && s.lastEmailTime == Some(last)
    ensures DecideNode(s, last + Cooldown).shouldSend
    ensures !DecideNode(s, last + Cooldown - 1).shouldSend
  {
  }
}
