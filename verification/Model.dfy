/** internal/model/model.go and internal/store/schema.sql: the shared domain types
    and the rows of the tables. A row's primary key is its position in its table. */
module Model {
  import opened Base
  import opened Text

  // ---------- what the language model answers ----------

  const TYPE_SALES := "sales"
  const TYPE_SUPPORT := "support"
  const TYPE_JUNK := "junk"
  const TYPE_INSUFFICIENT_INFO := "insufficient_info"

  /** The keys the code looks up in the grounding quotes and lists as unverified. */
  datatype Field = NameField | EmailField | PhoneField | CompanyField | TypeField | UrgencyField

  datatype ContactInfo = ContactInfo(
    name: Option<string>, email: Option<string>, phone: Option<string>, company: Option<string>)

  datatype Extraction = Extraction(
    enquiryType: string, confidence: real, urgency: string, intentSummary: string,
    contact: ContactInfo, missing: seq<string>, quotes: map<Field, string>,
    unverified: seq<Field>, escalated: bool)
  {
    predicate Unverified(field: Field) {
      field in unverified
    }
  }

  datatype Rule = Rule(
    name: string, condition: map<string, string>, team: string, user: Option<nat>, priority: int, active: bool)
  {
    /** Every condition key must be known and equal the field it names. */
    predicate Matches(ex: Extraction) {
      forall k | k in condition ::
        || (k == "enquiry_type" && condition[k] == ex.enquiryType)
        || (k == "urgency" && condition[k] == ex.urgency)
    }

    predicate Eligible(ex: Extraction) {
      active && Matches(ex)
    }
  }

  datatype MatchMethod = EmailExact | PhoneExact | TrgmName | TrgmNameCompany

  datatype Match = Match(contact: nat, score: real, how: MatchMethod)

  datatype Action =
    | ReviewByHuman | ArchiveJunk | DraftClarifyingQuestion | AttachToExistingContact
    | FlagForMergeReview | CreateOrUpdateCrm

  datatype Decision = Decision(action: Action, team: string, owner: Option<nat>)

  // ---------- rows ----------

  datatype Status =
    | Received | Processing | DiscardedDuplicate | ArchivedJunk | NeedsHumanReview
    | PendingApproval | Sent | Failed

  /** The statuses SetStatus is called with: everything a worker can leave an enquiry in for good. */
  predicate IsResting(s: Status) {
    s != Received && s != Processing
  }

  /** The statuses a worker's own run ends in, other than by running out of attempts. */
  predicate EndsWork(s: Status) {
    s == DiscardedDuplicate || s == ArchivedJunk || s == NeedsHumanReview || s == PendingApproval
  }

  datatype Enquiry = Enquiry(
    receivedAt: int, sender: string, text: string, hash: string, key: string,
    status: Status, attempts: nat, lockedUntil: Option<int>, nextAttemptAt: int)

  datatype Contact = Contact(
    name: Option<string>, email: Option<string>, phone: Option<string>, company: Option<nat>, source: nat)

  datatype Company = Company(name: string, domain: Option<string>)

  datatype RecordKind = Lead | Ticket

  datatype CrmRecord = CrmRecord(
    kind: RecordKind, contact: nat, owner: Option<nat>, team: string, open: bool, enquiry: nat)

  datatype MessageKind = Reply | ClarifyingQuestion

  datatype MessageStatus = MsgDraft | MsgPending | MsgApproved | MsgSent | MsgRejected

  datatype Author = ByModel(model: string) | ByUser(user: nat)

  datatype Message = Message(
    enquiry: nat, record: Option<nat>, kind: MessageKind, body: string,
    status: MessageStatus, draftedBy: Author, sentAt: Option<int>)

  /** The two statuses Approve and UpsertDraft accept as still open to change. */
  predicate Undecided(s: MessageStatus) {
    s == MsgDraft || s == MsgPending
  }

  datatype Verdict = Approved | ApprovedWithEdit | Rejected

  datatype Approval = Approval(message: nat, actor: nat, verdict: Verdict)

  datatype AuditAction = MessageSent | MessageRejected | OtherAction(name: string)

  datatype AuditRow = AuditRow(enquiry: nat, action: AuditAction, entity: nat, actor: Option<nat>)

  datatype Resolution = Pending | AutoAttached | Attached | Separate

  datatype Candidate = Candidate(
    enquiry: nat, contact: nat, score: real, how: MatchMethod, resolution: Resolution, resolvedBy: Option<nat>)

  datatype ExtractionRow = ExtractionRow(enquiry: nat, ex: Extraction)

  datatype Role = SalesRep | SupportAgent | OpsAdmin | Manager

  datatype User = User(role: Role, team: string)

  // ---------- configuration ----------

  /** Trigram similarity is left uninterpreted apart from its range, and that the empty
      string, which has no trigrams, is like nothing. */
  ghost predicate IsSimilarity(f: (string, string) -> real) {
    forall a, b :: 0.0 <= f(a, b) <= 1.0 && (a == "" ==> f(a, b) == 0.0)
  }

  type Similarity = f: (string, string) -> real | IsSimilarity(f) witness (a: string, b: string) => 0.0

  datatype Config = Config(
    lower: CaseMap, similarity: Similarity,
    confidence: real, autoAttach: real, trgmFloor: real,
    dedupeWindow: nat, maxAttempts: int, pollInterval: nat, lockTtl: nat,
    users: seq<User>, rules: seq<Rule>)
}
