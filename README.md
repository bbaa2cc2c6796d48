# LeetCode daily-question notifier: a Dafny model

The system polls LeetCode's question-of-the-day endpoint and decides whether a
notification email is due. When one is due, it drafts the email with a language
model and sends it. A small LangGraph state machine sequences these steps:

    fetch_info -> decide_send_email -> generate_subject -> generate_body -> send_email -> update_time -> (fetch_info | END)

This project models two pieces, and proves properties about each of them.

- **The question client** (`src/utils/leetcode.py`), in `leetcode.dfy`, with the
  Python value semantics it relies on in `pyjson.dfy`. The POST, the HTTP status
  check and JSON decoding are an input outcome (`LeetCode.Response`). From a
  decoded body, the client does the following:
  - looks up `data.activeDailyCodingChallengeQuestion`;
  - copies `date`, `question.title`, `question.difficulty` and
    `question.frontendQuestionId`;
  - builds the link as `"https://leetcode.com"` followed by the relative `link`;
  - classifies each failure into one of four messages.

  The decoded value is a JSON datatype. Python's `in`, `[]` and `str + …` are
  modelled on it with their real behaviour, including which operations raise.
  For example, `"data" in body` on a list tests whether an element equals the
  string, and on `None` it raises `TypeError`.
- **The monitoring workflow** (`agents.py`), in `monitoring.dfy` and
  `workflow.dfy`.
  - `MonitoringState` is a record. Each graph node is a function from the state
    to the updated state.
  - The graph's edges are the function `Workflow.Next`.
  - The compiled graph's `invoke` is the method `Workflow.Invoke`. A `while`
    loop steps a current-node variable and a state variable until `End`, or
    until the recursion limit is reached.
  - `Invoke` is proved equal to the recursive specification `Workflow.Run`. The
    whole-run properties are proved about `Run`.
  - The outside world is `Workflow.Env`. It gives one answer per node execution:
    the client's response, the generated body, the mailer's boolean result, and
    a clock reading in integer seconds.

Two properties are central:
- The cooldown rule (`Monitoring.DecideNode`). A message is sent only for an
  "open" question, and only the first time or once at least 7200 seconds have
  passed. The boundary is inclusive.
- `Workflow.AtMostOneEmail`. A run from the initial state hands at most one
  message to the mailer and ends within eight node executions, provided the
  clock advances by less than two hours during the run.
  `Workflow.ExactlyOneEmail` adds the converse: when the first fetch returns a
  record with a title, that one message is sent.

## Model

| member | source | states |
|---|---|---|
| `PyJson.Contains` | src/utils/leetcode.py:45 | `key in v` raises exactly for values that are not a dict, list or string (always a `TypeError`); on a dict it is key membership |
| `PyJson.Subscript` | src/utils/leetcode.py:46-51 | `v[key]` succeeds exactly when `v` is a dict holding `key`, and then gives that entry; a `KeyError` is raised exactly for a dict without the key |
| `PyJson.ConcatStr` | src/utils/leetcode.py:48 | `prefix + v` succeeds exactly for a string `v`, giving the concatenation |
| `LeetCode.GetDailyQuestion` | src/utils/leetcode.py:35-68 | exactly one side of the returned pair is present: the record or the error message |
| `LeetCode.ReadQuestion` | src/utils/leetcode.py:46-52 | the field lookups inside the daily object, in the client's order, stopping at the first exception; stated by `LeetCode.ExtractSucceedsIffWellFormed` and `LeetCode.NestedFaultIsUnexpected` (no contract of its own) |
| `LeetCode.Extract` | src/utils/leetcode.py:45-61 | the guard on the two outer keys, then the lookups: found, not in the response, or an exception; stated by `LeetCode.ExtractSucceedsIffWellFormed`, `LeetCode.MissingOuterKeys` and `LeetCode.NestedFaultIsUnexpected` (no contract of its own) |
| `LeetCode.RecordIffFound` | src/utils/leetcode.py:35-68 | the record is present exactly when the body was decoded and every lookup succeeded, and it is the record the lookups built |
| `LeetCode.RecordIffWellFormed` | src/utils/leetcode.py:35-61 | the client as a whole: a record comes back exactly when the body was decoded and has the expected nested shape, and it is then the expected record |
| `LeetCode.ExtractSucceedsIffWellFormed` | src/utils/leetcode.py:45-59 | a record is found iff the body has the expected nested shape (the link is a string); the record's link is `https://leetcode.com` + `link`; the other fields are copied from `date`, `question.title`, `question.difficulty`, `question.frontendQuestionId` |
| `LeetCode.MissingOuterKeys` | src/utils/leetcode.py:45-61 | a dict without `data`, or whose `data` dict lacks `activeDailyCodingChallengeQuestion`, gives `(None, "Could not find the daily question in the API response.")` |
| `LeetCode.NestedFaultIsUnexpected` | src/utils/leetcode.py:46-68 | with both outer keys present, a missing or wrongly shaped nested field lands in the catch-all handler; the message starts with "An unexpected error occurred: " |
| `LeetCode.FailureMessages` | src/utils/leetcode.py:40-66 | a transport/HTTP failure gives a message starting "Error fetching from LeetCode API: ", an undecodable body one starting "Error decoding JSON response: " |
| `Monitoring.Initial` | agents.py:222-232 | the run starts with status "unknown", no decision to send, no last email time, empty title and difficulty |
| `Monitoring.FetchNode` | agents.py:70-89 | only "open" or "error" is written; "open" exactly when a record came back, with title and difficulty copied from it; otherwise data is empty and title and difficulty are "Error"; the last email time, the send flag, subject, body and the rest are unchanged |
| `Monitoring.DecideNode` | agents.py:92-111 | only the send flag changes; it is false for every status other than "open" (so for "solved", "error" and "unknown"); true for "open" with no last email time; with a last time t, true iff now − t ≥ 7200 s |
| `Monitoring.CooldownBoundary` | agents.py:106-111 | exactly two hours after the last email the decision is to send; one second earlier it is not |
| `Monitoring.SubjectNode` | agents.py:114-117 | only the subject changes; it is "LeetCode: " + title + " (" + difficulty + ")", with "N/A" for an absent field |
| `Monitoring.SubjectNodeSplits` | agents.py:114-117 | splitting the written subject at its last " (" always succeeds, and gives the title and difficulty texts back whenever the difficulty text has no " (" |
| `Monitoring.SubjectRoundTrip` | agents.py:116 | the subject template is invertible: the title text may contain anything, and the difficulty text is recovered when it contains no " (" |
| `Monitoring.BodyNode` | agents.py:144-154 | only the body changes, to the generated (already trimmed) text |
| `Monitoring.SendNode` | agents.py:157-163 | only the send result changes, to the mailer's answer, whatever it is; the mail itself is `Monitoring.Outgoing` |
| `Monitoring.UpdateTimeNode` | agents.py:166-168 | only the last email time changes, to the current clock reading |
| `Monitoring.Outgoing` | agents.py:157-161 | the mail handed over carries the state's subject and body, or "LeetCode Update" and "Check the LeetCode problem." when the keys are absent |
| `Monitoring.IsSolved` | agents.py:171-173 | the test on the status "solved" that ends the run after the timestamp node; `Workflow.NeverSolved` shows it never holds (no contract of its own) |
| `Workflow.Predecessors` | agents.py:189-209 | each node is entered only from its graph predecessor: Decide from FetchInfo when the status is not "error" and the title is truthy; GenSubject from Decide when the flag is set; GenBody, Send and UpdateTime unconditionally from GenSubject, GenBody and Send; FetchInfo from UpdateTime unless solved; End otherwise |
| `Workflow.Next` | agents.py:187-209 | the graph's edges as a transition function; characterised edge by edge by `Workflow.Predecessors` (no contract of its own) |
| `Workflow.Run` | agents.py:177-211 | a run of the compiled graph from a node: apply the node, collect the mail it hands over, follow the edge, until End or the fuel runs out; `Workflow.Invoke` is proved equal to it (no contract of its own) |
| `Workflow.Apply` | agents.py:180-185 | only the fetch node changes the status, and then only to "open" or "error"; only the timestamp node changes the last email time |
| `Workflow.Invoke` | agents.py:177-211 | the driver loop returns exactly what `Run` specifies: the final state, the mails handed to the mailer in order, and whether End was reached before the recursion limit |
| `Workflow.NeverSolved` | agents.py:70-173 | a run that does not start "solved" never ends "solved": no node writes that status |
| `Workflow.FailedSendStillStamped` | agents.py:157-168 | the send node records the mailer's answer and is always followed by the timestamp node, which records the current time even when the send failed |
| `Workflow.SendCycle` | agents.py:114-168 | a sending pass mails the template subject with the generated body; afterwards the state holds that subject and body, the mailer's answer and the timestamp, and nothing else has changed |
| `Workflow.SecondPassSendsNothing` | agents.py:70-111 | a re-entered fetch with a last email time less than two hours old sends nothing and reaches End in two node executions |
| `Workflow.SecondPassSendsAgain` | agents.py:92-111 | if the re-fetch succeeds with a title and two hours have passed, the loop does send again, so the cooldown is what stops the loop |
| `Workflow.SendThenSecondPass` | agents.py:201-209 | from the send node, with at least one node execution left: exactly one mail, then the timestamp, then a pass that sends nothing; with four or more executions left the run reaches End |
| `Workflow.ComposeThenSend` | agents.py:199-203 | subject and body composition lead to exactly one send, given at least three node executions; at most one mail in any case, and End is reached given six |
| `Workflow.FirstPassSendsOne` | agents.py:104-108 | a first decision with status "open" and no timestamp sends: exactly one mail given at least four node executions, never a second one, and End is reached given seven |
| `Workflow.AtMostOneEmail` | agents.py:218-233 | from the initial state, with the clock advancing less than two hours during the run, at most one mail is handed over, and End is reached within eight node executions |
| `Workflow.ExactlyOneEmail` | agents.py:218-233 | from the initial state, when the first fetch returns a record with a truthy title and the clock advances less than two hours, exactly one mail is handed over once the limit allows the five node executions up to the send |
| `Workflow.RunMonitoringWorkflow` | agents.py:218-234 | one invocation from the initial state with the default recursion limit; under the same clock condition, at most one mail and the run reaches End; exactly one mail when the first fetch returns a record with a title |
| `LeetCode.TwoSumExtracted` | src/utils/leetcode.py:45-59 | the "Two Sum" response yields date "2024-01-01", link "https://leetcode.com/problems/two-sum/", difficulty "Easy", id "1" |
| `Workflow.TwoSumFirstRun` | agents.py:70-117 | on that response the question opens, the first decision sends, and the subject is "LeetCode: Two Sum (Easy)" |

## Behaviour of the code worth knowing

- No node writes the status "solved". The fetch node writes only "open" or
  "error", so the edge out of the timestamp node always leads back to
  FetchInfo. What ends the loop is the re-entered Decide node: the last email
  time is fresh, so it decides not to send (`Workflow.NeverSolved`,
  `Workflow.SecondPassSendsNothing`).
- The client reports two kinds of shape failure differently. A missing outer
  key (`data` or `activeDailyCodingChallengeQuestion`) gives the fixed
  message "Could not find the daily question in the API response.". A missing
  or mistyped inner field raises an exception, and the catch-all handler
  reports it as "An unexpected error occurred: …"
  (`LeetCode.MissingOuterKeys`, `LeetCode.NestedFaultIsUnexpected`).
- The timestamp node runs after every send attempt, including a failed one.
  A failed send therefore still starts a new two-hour cooldown
  (`Workflow.FailedSendStillStamped`).

## Left out

- SMTP delivery (agents.py:46-66) is network I/O. Only its boolean result
  is an input (`Env.deliver`).
- The sender, receiver and server configuration (agents.py:16-29) is process
  configuration, as is the startup check for the Groq key. A `Mail` carries
  only the subject and body.
- Body generation by the language model and its prompt (agents.py:120-154)
  are a foreign call with non-deterministic output. The generated, already
  trimmed text is an input (`Env.generate`).
- A failing language-model call raises out of `invoke` and ends the run.
  The model treats the generated text as always available.
- The HTTP POST, `raise_for_status` and `response.json()`
  (src/utils/leetcode.py:38-43) are I/O and library code. Their outcome is
  the input `LeetCode.Response`. The text of a transport or decode exception
  is an input string.
- The exception class that `response.json()` raises depends on the installed
  version of `requests`. From version 2.27 it is also a `RequestException`, so
  the first handler would catch it. The model gives an undecodable body the
  decode handler's prefix, as the except clauses are written.
- `datetime.now` and time zones (agents.py:103, 168, 220) are wall-clock
  machinery. The clock is an integer number of seconds (`Env.clock`).
- `Monitoring.DecideNode`: compares whole seconds. Sub-second differences
  that `datetime` would see are not modelled.
- LangGraph's engine is left out. The graph is the plain transition function
  `Workflow.Next` plus the driver `Workflow.Invoke`.
- `Workflow.RecursionLimit` is 25, LangGraph's default recursion limit. The
  driver treats it as a maximum number of node executions. The exact count at
  which the library raises `GraphRecursionError` is library detail. A run that
  reaches the limit is reported with `halted == false`, together with the mails
  already sent.
- `email_sent` is not a declared key of `MonitoringState`. LangGraph may
  ignore or reject an update to an undeclared key, depending on its version.
  The model records the value in an extra field, `emailSent`.
- `PyJson.Str`: `str()` of a title or difficulty that decodes to a list or a
  dict is Python's repr, with its own quoting, escaping and key order. The
  model renders it only as "[...]" or "{...}".
- JSON numbers are modelled as integers. Floats are not modelled.
- The `TypeError` messages inside the catch-all message follow CPython 3.11
  wording. Only the fixed prefixes are stated in contracts.
- `generate_email_body` reads `state["leetcode_title"]` without a default.
  That key is never absent in a reachable state, so its `KeyError` is not
  modelled.
- `leetcode_title_slug` is set in the initial state and never written again.
- Printing and logging, the `__main__` blocks (agents.py:238-239,
  src/utils/leetcode.py:71-81) and the unused `schedule`/`time` imports are
  left out.
