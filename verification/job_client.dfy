/** The job-service client of the scraper: the job document it submits, the
    bounded-retry submission, and the classification of status replies that
    drives the unbounded polling loop. Network replies are inputs. */
module JobClient {
  import opened Common
  import opened Json

  /** Number of submission attempts before a URL is given up. */
  const MaxRetries: nat := 3

  /** Name of the single extraction rule every job carries. */
  const ContactSectionName: string := "ContactSection"

  /** Selector of a page's contact section. */
  const ContactSectionXPath: string :=
    "//section[@id=\"contact\" and contains(@class, \"flex\") and contains(@class, \"flex-col\")]"

  // ---------------------------------------------------------------- job document

  /** The one extraction rule of a job: the contact section of `url`. */
  function ContactRule(url: string): (rule: Json)
    ensures rule.JObject?
    ensures Get(rule.members, "name") == Some(JString(ContactSectionName))
    ensures Get(rule.members, "xpath") == Some(JString(ContactSectionXPath))
    ensures Get(rule.members, "url") == Some(JString(url))
  {
    var ms := [
      ("name", JString(ContactSectionName)),
      ("xpath", JString(ContactSectionXPath)),
      ("url", JString(url))];
    var keys := ["name", "xpath", "url"];
    assert forall j :: 0 <= j < |ms| ==> ms[j].0 == keys[j];
    assert forall i, j :: 0 <= i < j < |keys| ==> keys[i] != keys[j];
    GetAt(ms, 0);
    GetAt(ms, 1);
    GetAt(ms, 2);
    JObject(ms)
  }

  /** The job description posted for `url`. `createdAt` is the UTC creation
      timestamp, opaque to the model. */
  function JobDocument(url: string, createdAt: string): (doc: Json)
    ensures doc.JObject? && |doc.members| == 9
    ensures forall i, j :: 0 <= i < j < |doc.members| ==> doc.members[i].0 != doc.members[j].0
  {
    JObject([
      ("id", JString("")),
      ("url", JString(url)),
      ("elements", JArray([ContactRule(url)])),
      ("user", JString("")),
      ("time_created", JString(createdAt)),
      ("result", JArray([])),
      ("job_options", JObject([
         ("multi_page_scrape", JBool(false)),
         ("custom_headers", JObject([]))])),
      ("status", JString("Queued")),
      ("chat", JString(""))])
  }

  /** What the service reads from a job document: a queued job for `url`, with
      an empty id and result, and exactly one extraction rule, named
      "ContactSection", aimed at the same URL. */
  lemma JobDocumentShape(url: string, createdAt: string)
    ensures var ms := JobDocument(url, createdAt).members;
            && Get(ms, "url") == Some(JString(url))
            && Get(ms, "status") == Some(JString("Queued"))
            && Get(ms, "id") == Some(JString(""))
            && Get(ms, "result") == Some(JArray([]))
            && Get(ms, "time_created") == Some(JString(createdAt))
            && Get(ms, "elements").Some? && Get(ms, "elements").value.JArray?
            && var elements := Get(ms, "elements").value.items;
               && |elements| == 1
               && elements[0].JObject?
               && Get(elements[0].members, "name") == Some(JString(ContactSectionName))
               && Get(elements[0].members, "url") == Get(ms, "url")
  {
    DocumentId(url, createdAt);
    DocumentUrl(url, createdAt);
    DocumentElements(url, createdAt);
    DocumentTimeCreated(url, createdAt);
    DocumentResult(url, createdAt);
    DocumentStatus(url, createdAt);
  }

  // The document's fields, one key at a time (keeps each proof small).

  lemma DocumentId(url: string, createdAt: string)
    ensures Get(JobDocument(url, createdAt).members, "id") == Some(JString(""))
  {
    GetAt(JobDocument(url, createdAt).members, 0);
  }

  lemma DocumentUrl(url: string, createdAt: string)
    ensures Get(JobDocument(url, createdAt).members, "url") == Some(JString(url))
  {
    GetAt(JobDocument(url, createdAt).members, 1);
  }

  lemma DocumentElements(url: string, createdAt: string)
    ensures Get(JobDocument(url, createdAt).members, "elements") == Some(JArray([ContactRule(url)]))
  {
    GetAt(JobDocument(url, createdAt).members, 2);
  }

  lemma DocumentTimeCreated(url: string, createdAt: string)
    ensures Get(JobDocument(url, createdAt).members, "time_created") == Some(JString(createdAt))
  {
    GetAt(JobDocument(url, createdAt).members, 4);
  }

  lemma DocumentResult(url: string, createdAt: string)
    ensures Get(JobDocument(url, createdAt).members, "result") == Some(JArray([]))
  {
    var ms := JobDocument(url, createdAt).members;
    assert ms[7].0 == "status";
    GetAt(ms, 5);
  }

  lemma DocumentStatus(url: string, createdAt: string)
    ensures Get(JobDocument(url, createdAt).members, "status") == Some(JString("Queued"))
  {
    var ms := JobDocument(url, createdAt).members;
    assert ms[8].0 == "chat";
    GetAt(ms, 7);
  }

  // ---------------------------------------------------------------- submission

  /** What one submission request brought back: a transport or HTTP error
      (including a body that is not JSON), or a decoded JSON body. */
  datatype SubmitReply = SubmitTransportError | SubmitBody(body: Json)

  /** The verdict on one attempt. */
  datatype Attempt =
    | Accepted(id: Json)   // a present, truthy `id`
    | Rejected             // transport error, or an `id` missing or falsy
    | Crashed              // the body is not an object, so `.get("id")` raises

  function JudgeAttempt(reply: SubmitReply): (a: Attempt)
    ensures a.Accepted? <==>
              reply.SubmitBody? && reply.body.JObject? &&
              Get(reply.body.members, "id").Some? && Truthy(Get(reply.body.members, "id").value)
    ensures a.Accepted? ==> Get(reply.body.members, "id") == Some(a.id)
    ensures a.Crashed? <==> reply.SubmitBody? && !reply.body.JObject?
  {
    match reply
    case SubmitTransportError => Rejected
    case SubmitBody(body) =>
      if !body.JObject? then Crashed
      else match Get(body.members, "id")
        case Some(id) => if Truthy(id) then Accepted(id) else Rejected
        case None => Rejected
  }

  datatype SubmitOutcome = Submitted(id: Json) | NotSubmitted | SubmitRaised

  /** The outcome and the number of requests made. */
  datatype Submission = Submission(outcome: SubmitOutcome, attempts: nat)

  /** The retry loop from attempt `n` on; `replies[k]` answers attempt `k`. */
  function SubmitFrom(replies: seq<SubmitReply>, n: nat): (s: Submission)
    requires n <= MaxRetries <= |replies|
    ensures n <= s.attempts <= MaxRetries
    ensures s.outcome.NotSubmitted? <==> s.attempts == MaxRetries && forall k :: n <= k < MaxRetries ==> JudgeAttempt(replies[k]).Rejected?
    ensures !s.outcome.NotSubmitted? ==>
              && n < s.attempts
              && (forall k :: n <= k < s.attempts - 1 ==> JudgeAttempt(replies[k]).Rejected?)
              && (s.outcome.Submitted? <==> JudgeAttempt(replies[s.attempts - 1]).Accepted?)
              && (s.outcome.Submitted? ==> s.outcome.id == JudgeAttempt(replies[s.attempts - 1]).id)
              && (s.outcome.SubmitRaised? <==> JudgeAttempt(replies[s.attempts - 1]).Crashed?)
    decreases MaxRetries - n
  {
    if n == MaxRetries then Submission(NotSubmitted, MaxRetries)
    else match JudgeAttempt(replies[n])
      case Accepted(id) => Submission(Submitted(id), n + 1)
      case Crashed => Submission(SubmitRaised, n + 1)
      case Rejected => SubmitFrom(replies, n + 1)
  }

  /** `submit_scraping_job`: up to `MaxRetries` attempts; the first accepted
      attempt's id is returned, and after `MaxRetries` rejections there is none. */
  function Submit(replies: seq<SubmitReply>): (s: Submission)
    requires MaxRetries <= |replies|
    ensures 1 <= s.attempts <= MaxRetries
    ensures s.outcome.NotSubmitted? <==> forall k :: 0 <= k < MaxRetries ==> JudgeAttempt(replies[k]).Rejected?
    ensures !s.outcome.NotSubmitted? ==>
              && (forall k :: 0 <= k < s.attempts - 1 ==> JudgeAttempt(replies[k]).Rejected?)
              && (s.outcome.Submitted? <==> JudgeAttempt(replies[s.attempts - 1]).Accepted?)
              && (s.outcome.SubmitRaised? <==> JudgeAttempt(replies[s.attempts - 1]).Crashed?)
    ensures s.outcome.Submitted? ==>
              && Truthy(s.outcome.id)
              && JudgeAttempt(replies[s.attempts - 1]) == Accepted(s.outcome.id)
              && forall k :: 0 <= k < s.attempts - 1 ==> JudgeAttempt(replies[k]).Rejected?
  {
    SubmitFrom(replies, 0)
  }

  /** The answers to later requests are never looked at. */
  lemma SubmitIgnoresUnusedReplies(replies: seq<SubmitReply>, other: seq<SubmitReply>)
    requires MaxRetries <= |replies| && MaxRetries <= |other|
    requires replies[..MaxRetries] == other[..MaxRetries]
    ensures Submit(replies) == Submit(other)
  {
    assert forall k :: 0 <= k < MaxRetries ==> replies[k] == other[k] by {
      forall k | 0 <= k < MaxRetries ensures replies[k] == other[k] {
        assert replies[k] == replies[..MaxRetries][k];
      }
    }
    assert SubmitFrom(replies, 2) == SubmitFrom(other, 2);
    assert SubmitFrom(replies, 1) == SubmitFrom(other, 1);
  }

  // ---------------------------------------------------------------- polling

  /** What one status request brought back. */
  datatype StatusReply = StatusTransportError | StatusBody(body: Json)

  /** The decision one reply leads to. */
  datatype PollStep =
    | KeepPolling          // error or non-terminal status: sleep and ask again
    | NoResult             // "Failed", or a reply of unusable shape: return None
    | Completed(result: Json)

  /** The object whose `status` and `result` are read: the reply itself, or the
      first element of a list reply; None when the shape is unusable. */
  function StatusObject(body: Json): (o: Option<seq<(string, Json)>>)
    ensures o.Some? <==> body.JObject? || (body.JArray? && |body.items| > 0 && body.items[0].JObject?)
    ensures body.JObject? ==> o == Some(body.members)
    ensures body.JArray? && o.Some? ==> o == Some(body.items[0].members)
  {
    match body
    case JArray(xs) => if |xs| > 0 && xs[0].JObject? then Some(xs[0].members) else None
    case JObject(ms) => Some(ms)
    case _ => None
  }

  /** One pass of the `check_job_status` loop body. */
  function ClassifyStatus(reply: StatusReply): (step: PollStep)
    ensures reply.StatusTransportError? ==> step == KeepPolling
    ensures reply.StatusBody? && StatusObject(reply.body).None? ==> step == NoResult
    ensures reply.StatusBody? && StatusObject(reply.body).Some? ==>
              var ms := StatusObject(reply.body).value;
              && (step.Completed? <==> Get(ms, "status") == Some(JString("Completed")))
              && (step.Completed? ==> step.result == GetOr(ms, "result", JArray([])))
              && (step == NoResult <==> Get(ms, "status") == Some(JString("Failed")))
  {
    match reply
    case StatusTransportError => KeepPolling
    case StatusBody(body) =>
      match StatusObject(body)
      case None => NoResult
      case Some(ms) =>
        var status := Get(ms, "status");
        if status == Some(JString("Completed")) then Completed(GetOr(ms, "result", JArray([])))
        else if status == Some(JString("Failed")) then NoResult
        else KeepPolling
  }

  predicate Terminal(step: PollStep) {
    !step.KeepPolling?
  }

  /** What `check_job_status` returns for a terminal step. */
  function Returned(step: PollStep): Option<Json>
    requires Terminal(step)
  {
    if step.Completed? then Some(step.result) else None
  }

  /** A list reply counts only through its first element. */
  lemma ListReplyIsFirstElement(xs: seq<Json>)
    ensures ClassifyStatus(StatusBody(JArray(xs))) ==
              if |xs| > 0 && xs[0].JObject? then ClassifyStatus(StatusBody(xs[0])) else NoResult
  {
  }

  /** The polling loop over the replies it would receive, in order. */
  datatype PollOutcome =
    | Finished(result: Option<Json>, polls: nat)  // returned after `polls` requests
    | Waiting                                     // every reply so far says keep polling

  function Poll(replies: seq<StatusReply>): (p: PollOutcome)
    ensures p.Waiting? <==> forall k :: 0 <= k < |replies| ==> ClassifyStatus(replies[k]) == KeepPolling
    ensures p.Finished? ==>
              && 1 <= p.polls <= |replies|
              && (forall k :: 0 <= k < p.polls - 1 ==> ClassifyStatus(replies[k]) == KeepPolling)
              && Terminal(ClassifyStatus(replies[p.polls - 1]))
              && p.result == Returned(ClassifyStatus(replies[p.polls - 1]))
  {
    if |replies| == 0 then Waiting
    else
      var step := ClassifyStatus(replies[0]);
      if Terminal(step) then Finished(Returned(step), 1)
      else match Poll(replies[1..])
        case Waiting => Waiting
        case Finished(r, n) => Finished(r, n + 1)
  }

  /** Replies after the terminal one are never requested. */
  lemma {:induction false} PollStopsAtTerminal(replies: seq<StatusReply>, later: seq<StatusReply>)
    requires Poll(replies).Finished?
    ensures Poll(replies + later) == Poll(replies)
  {
    if !Terminal(ClassifyStatus(replies[0])) {
      assert (replies + later)[1..] == replies[1..] + later;
      PollStopsAtTerminal(replies[1..], later);
    }
  }

  /** A job reported "Failed" on the first poll ends polling with no result. */
  lemma PollFailedExample()
    ensures Poll([StatusBody(JObject([("status", JString("Failed"))]))]) == Finished(None, 1)
  {
  }

  /** A job still running, then reported "Completed" (as the first element of a
      list reply), hands back its own result on the second poll. */
  lemma PollCompletedExample(result: Json)
    ensures var done := [("status", JString("Completed")), ("result", result)];
            Poll([StatusBody(JObject([("status", JString("Running"))])), StatusBody(JArray([JObject(done)]))])
            == Finished(Some(result), 2)
  {
    var done := [("status", JString("Completed")), ("result", result)];
    GetAt([("status", JString("Running"))], 0);
    GetAt(done, 0);
    GetAt(done, 1);
  }

  /** Only "Completed" hands a result back; every other ending is None. */
  lemma PollResultOnlyOnCompleted(replies: seq<StatusReply>)
    requires Poll(replies).Finished? && Poll(replies).result.Some?
    ensures ClassifyStatus(replies[Poll(replies).polls - 1]).Completed?
  {
  }
}
