/**
  Values that cross the adapter's boundaries: publication evidence, execution results and
  control-plane events, with the validators the adapter and the domain package apply to them.
  Go strings are byte strings; blanks are the ASCII white space characters.
 */
module Records {

  datatype Option<+T> = None | Some(value: T)

  predicate IsBlank(c: char) {
    c == ' ' || c == '\t' || c == '\n' || c == '\r' || c as int == 11 || c as int == 12
  }

  function TrimLeft(s: string): string {
    if s != [] && IsBlank(s[0]) then TrimLeft(s[1..]) else s
  }

  function TrimRight(s: string): string {
    if s != [] && IsBlank(s[|s| - 1]) then TrimRight(s[..|s| - 1]) else s
  }

  /** strings.TrimSpace */
  function Trim(s: string): string {
    TrimRight(TrimLeft(s))
  }

  predicate LowerHex(c: char) {
    '0' <= c <= '9' || 'a' <= c <= 'f'
  }

  predicate AnyHex(c: char) {
    LowerHex(c) || 'A' <= c <= 'F'
  }

  /** A SHA-256 digest in the one spelling that survives decoding and encoding again. */
  predicate Hex64(s: string) {
    |s| == 64 && forall i | 0 <= i < |s| :: LowerHex(s[i])
  }

  datatype Criterion = Criterion(name: string, status: string, proof: string)

  /** The seven fields that identify a validated patch and its verification. */
  datatype Evidence = Evidence(
    head: string, patch: string, files: int, diffBytes: int,
    profile: string, output: string, outputBytes: int)

  const NO_EVIDENCE := Evidence("", "", 0, 0, "", "", 0)

  datatype Checkpoint = Checkpoint(evidence: Evidence, criteria: seq<Criterion>)

  datatype Result = Result(
    summary: string, branch: string, url: string, number: int,
    evidence: Evidence, criteria: seq<Criterion>)

  datatype Submission = Submission(
    attempt: string, branch: string, plan: seq<string>, requireCriteria: bool, body: string)

  datatype Kind = Heartbeat | PublicationCheckpoint | Completed | Failed | NeedsAttention

  /** The last segment of a delivery ID "adapter:<job>:<suffix>". */
  datatype Suffix = SFailed | SInvalidResult | SMismatch | SCompleted | SReconciled | SInterrupted | SCheckpoint

  datatype Event = Event(
    attempt: string, job: string, suffix: Suffix, kind: Kind,
    summary: string, branch: string, url: string, number: int, errorCode: string,
    evidence: Evidence, criteria: seq<Criterion>)

  /** What the deployment fixes and what the adapter asks of code that is not modelled. */
  datatype Setting = Setting(
    attempt: string,
    uuid: string -> string,
    admits: Submission -> bool,
    digest: Submission -> string,
    draftUrl: (Submission, int, string) -> bool)

  /** An admitted submission names a parseable attempt ID; digests are hex SHA-256. */
  ghost predicate GoodSetting(st: Setting) {
    && (forall sub :: st.admits(sub) ==> st.uuid(sub.attempt) != "")
    && (forall sub :: Hex64(st.digest(sub)))
  }

  predicate ValidCriterion(c: Criterion) {
    && 3 <= |Trim(c.name)| && |c.name| <= 1000 && c.name == Trim(c.name)
    && (c.status == "passed" || c.status == "failed")
    && 3 <= |Trim(c.proof)| && |c.proof| <= 2000
    && '\0' !in c.name + c.proof
  }

  predicate ValidCriteria(cs: seq<Criterion>) {
    && |cs| <= 20
    && (forall i | 0 <= i < |cs| :: ValidCriterion(cs[i]))
    && (forall i, j | 0 <= i < j < |cs| :: cs[i].name != cs[j].name)
  }

  predicate CriteriaVerified(plan: seq<string>, cs: seq<Criterion>) {
    && plan != [] && |cs| == |plan| && ValidCriteria(cs)
    && forall i | 0 <= i < |plan| :: exists j | 0 <= j < |cs| :: cs[j].name == plan[i] && cs[j].status == "passed"
  }

  const MAX_OUTPUT := 0x10_0000

  predicate ValidVerification(e: Evidence) {
    || (e.profile == "" && e.output == "" && e.outputBytes == 0)
    || (0 <= e.outputBytes <= MAX_OUTPUT && Hex64(e.profile) && Hex64(e.output))
  }

  predicate ValidCheckpoint(c: Checkpoint) {
    && ValidCriteria(c.criteria) && (c.criteria == [] || c.evidence.profile != "")
    && (|c.evidence.head| == 40 || |c.evidence.head| == 64)
    && (forall i | 0 <= i < |c.evidence.head| :: AnyHex(c.evidence.head[i]))
    && Hex64(c.evidence.patch) && c.evidence.files > 0 && c.evidence.diffBytes > 0
    && ValidVerification(c.evidence)
  }

  /** The revision test: 7 to 64 hexadecimal digits once trimmed. */
  predicate ValidRevision(sha: string) {
    7 <= |Trim(sha)| <= 64 && forall i | 0 <= i < |Trim(sha)| :: AnyHex(Trim(sha)[i])
  }

  /** validExecutionResult: both Draft URL policies refuse a number below one. */
  predicate ValidResult(st: Setting, sub: Submission, r: Result) {
    && ValidVerification(r.evidence)
    && (r.evidence.profile != "" ==> r.evidence.patch != "")
    && (r.evidence.patch != "" || r.evidence.files != 0 || r.evidence.diffBytes != 0 ==>
          Hex64(r.evidence.patch) && r.evidence.files > 0 && r.evidence.diffBytes > 0)
    && ValidCriteria(r.criteria)
    && (sub.requireCriteria ==> CriteriaVerified(sub.plan, r.criteria))
    && Trim(r.summary) != "" && |r.summary| <= 4000
    && r.branch == sub.branch && ValidRevision(r.evidence.head)
    && r.number >= 1 && st.draftUrl(sub, r.number, r.url)
  }

  predicate Matches(r: Result, c: Checkpoint) {
    r.evidence == c.evidence && r.criteria == c.criteria
  }

  /** The control plane's own check of an event, applied before every send and on every reload. */
  predicate ValidEvent(e: Event) {
    && ValidCriteria(e.criteria)
    && (e.criteria != [] ==> (e.kind.PublicationCheckpoint? || e.kind.Completed?) && e.evidence.profile != "")
    && e.attempt != "" && Trim(e.job) != ""
    && match e.kind {
         case Heartbeat =>
           e.summary == "" && e.branch == "" && e.url == "" && e.number == 0 && e.errorCode == "" && e.evidence == NO_EVIDENCE
         case PublicationCheckpoint =>
           && e.summary == "" && e.errorCode == "" && e.url == "" && e.number == 0
           && "agent/" <= e.branch && (|e.evidence.head| == 40 || |e.evidence.head| == 64)
           && (forall i | 0 <= i < |e.evidence.head| :: LowerHex(e.evidence.head[i]))
           && e.evidence.files > 0 && e.evidence.diffBytes > 0
           && ValidVerification(e.evidence) && Hex64(e.evidence.patch)
         case Completed =>
           && 1 <= |Trim(e.summary)| <= 4000 && ValidVerification(e.evidence)
           && (e.evidence.profile != "" ==> e.evidence.patch != "")
           && (e.evidence.patch != "" || e.evidence.files != 0 || e.evidence.diffBytes != 0 ==>
                 Hex64(e.evidence.patch) && e.evidence.files > 0 && e.evidence.diffBytes > 0)
           && e.errorCode == "" && e.number > 0
         case _ =>
           && 1 <= |Trim(e.summary)| <= 4000
           && e.branch == "" && e.url == "" && e.number == 0 && e.evidence == NO_EVIDENCE
       }
  }

  /** "adapter-" and 18 random bytes in hexadecimal. */
  predicate JobForm(id: string) {
    |id| == 44 && id[..8] == "adapter-" && forall i | 8 <= i < 44 :: AnyHex(id[i])
  }

  function BoundedSummary(s: string): string {
    var t := Trim(s);
    if |t| > 4000 then t[..4000] else t
  }

  function CompletedEvent(st: Setting, job: string, sub: Submission, r: Result, suffix: Suffix): Event {
    Event(st.uuid(sub.attempt), job, suffix, Completed, BoundedSummary(r.summary), r.branch, r.url, r.number, "",
          r.evidence, r.criteria)
  }

  function AttentionEvent(st: Setting, job: string, sub: Submission, suffix: Suffix, code: string,
      summary: string): Event {
    Event(st.uuid(sub.attempt), job, suffix, NeedsAttention, summary, "", "", 0, code, NO_EVIDENCE, [])
  }

  lemma {:induction false} TrimLeftShape(s: string)
    ensures |TrimLeft(s)| <= |s|
    ensures TrimLeft(s) != [] ==> !IsBlank(TrimLeft(s)[0])
  {
    if s != [] && IsBlank(s[0]) { TrimLeftShape(s[1..]); }
  }

  lemma {:induction false} TrimRightShape(s: string)
    ensures |TrimRight(s)| <= |s| && TrimRight(s) == s[..|TrimRight(s)|]
    ensures TrimRight(s) != [] ==> !IsBlank(TrimRight(s)[|TrimRight(s)| - 1])
    ensures s != [] && !IsBlank(s[0]) ==> TrimRight(s) != []
  {
    if s != [] && IsBlank(s[|s| - 1]) { TrimRightShape(s[..|s| - 1]); }
  }

  /** Trimming leaves no blank at either end, is idempotent, and leaves a text without such blanks as it is. */
  lemma TrimIdempotent(s: string)
    ensures Trim(Trim(s)) == Trim(s) && |Trim(s)| <= |s|
    ensures Trim(s) != [] ==> !IsBlank(Trim(s)[0]) && !IsBlank(Trim(s)[|Trim(s)| - 1])
    ensures s != [] && !IsBlank(s[0]) ==> Trim(s) != []
    ensures s != [] && !IsBlank(s[0]) && !IsBlank(s[|s| - 1]) ==> Trim(s) == s
  {
    TrimLeftShape(s);
    TrimRightShape(TrimLeft(s));
  }

  /** A result that passed validation and matches a valid checkpoint yields an event the control plane accepts. */
  lemma CompletedEventValid(st: Setting, job: string, sub: Submission, r: Result, c: Checkpoint, suffix: Suffix)
    requires ValidResult(st, sub, r) && Matches(r, c) && ValidCheckpoint(c)
    requires st.uuid(sub.attempt) != "" && JobForm(job)
    ensures var e := CompletedEvent(st, job, sub, r, suffix);
      && ValidEvent(e) && e.evidence == c.evidence && e.criteria == c.criteria && e.branch == sub.branch
      && e.number >= 1 && st.draftUrl(sub, e.number, e.url) && e.summary <= Trim(r.summary)
      && ValidRevision(e.evidence.head) && (sub.requireCriteria ==> CriteriaVerified(sub.plan, e.criteria))
  {
    TrimIdempotent(r.summary);
    assert job[0] == job[..8][0];
    TrimIdempotent(job);
  }

  /** The event that asks the control plane to keep a checkpoint. */
  function CheckpointEvent(st: Setting, job: string, sub: Submission, c: Checkpoint): Event {
    Event(st.uuid(sub.attempt), job, SCheckpoint, PublicationCheckpoint, "", sub.branch, "", 0, "", c.evidence, c.criteria)
  }

  /**
    Of the checkpoints the adapter keeps, the control plane accepts exactly those with a lower-case head and an agent
    branch.
   */
  lemma CheckpointEventExactly(st: Setting, job: string, sub: Submission, c: Checkpoint)
    requires ValidCheckpoint(c) && st.uuid(sub.attempt) != "" && JobForm(job)
    ensures ValidEvent(CheckpointEvent(st, job, sub, c)) <==>
      "agent/" <= sub.branch && forall i | 0 <= i < |c.evidence.head| :: LowerHex(c.evidence.head[i])
  {
    assert job[0] == job[..8][0];
    TrimIdempotent(job);
  }

  lemma AttentionEventValid(st: Setting, job: string, sub: Submission, suffix: Suffix, code: string, summary: string)
    requires st.uuid(sub.attempt) != "" && JobForm(job) && 1 <= |Trim(summary)| <= 4000
    ensures ValidEvent(AttentionEvent(st, job, sub, suffix, code, summary))
  {
    assert job[0] == job[..8][0];
    TrimIdempotent(job);
  }
}
