/** The entities of the helpdesk store (`mockData`): users, tickets with their
    replies, knowledge-base articles, agent suggestions, audit entries and the
    configuration. The string-valued "enums" of the source (roles, statuses,
    categories, audit actions) are datatypes here. */
module Records {
  import opened Wrappers

  /** `'admin' | 'agent' | 'user'`. */
  datatype Role = Admin | Agent | EndUser

  /** `'open' | 'triaged' | 'waiting_human' | 'resolved' | 'closed'`. */
  datatype Status = Open | Triaged | WaitingHuman | Resolved | Closed

  /** `'billing' | 'tech' | 'shipping' | 'other'`. */
  datatype Category = Billing | Tech | Shipping | Other

  /** `'draft' | 'published'`. */
  datatype ArticleStatus = Draft | Published

  datatype User = User(id: string, email: string, name: string, role: Role, password: string)

  /** `currentUser`: the fields of the signed-in user that the auth token carries. */
  datatype Session = Session(id: string, email: string, name: string, role: Role)

  function SessionOf(u: User): Session
  {
    Session(u.id, u.email, u.name, u.role)
  }

  datatype Reply = Reply(id: string, sender: string, message: string, timestamp: string, isAI: bool)

  datatype Ticket = Ticket(
    id: string,
    title: string,
    description: string,
    category: Category,
    status: Status,
    createdBy: string,
    assignee: Option<string>,
    createdAt: string,
    replies: seq<Reply>,
    attachments: seq<string>)

  datatype Article = Article(
    id: string,
    title: string,
    body: string,
    tags: seq<string>,
    status: ArticleStatus,
    updatedAt: string)

  datatype Suggestion = Suggestion(
    id: string,
    ticketId: string,
    predictedCategory: Category,
    articleIds: seq<string>,
    draftReply: string,
    confidence: real,
    autoClosed: bool,
    createdAt: string,
    traceId: string)

  /** `'system' | 'agent'`: who an audit entry is attributed to. */
  datatype Actor = SystemActor | AgentActor

  datatype Action =
    | TicketCreated
    | AgentClassified
    | KbRetrieved
    | DraftGenerated
    | AutoClosed
    | AssignedToHuman
    | ReplySent

  /** The `meta` object of an audit entry, one shape per action. */
  datatype Meta =
    | NoMeta
    | ClassifiedMeta(category: Category, confidence: real)
    | RetrievedMeta(articleIds: seq<string>, scores: seq<real>)
    | DraftMeta(length: nat)
    | ConfidenceMeta(value: real)
    | AssigneeMeta(assignee: string)
    | StatusMeta(status: Status)

  datatype AuditEntry = AuditEntry(
    id: string,
    ticketId: string,
    traceId: string,
    actor: Actor,
    action: Action,
    meta: Meta,
    timestamp: string)

  datatype Config = Config(autoCloseEnabled: bool, confidenceThreshold: real, slaHours: int)

  /** The result of the keyword classifier. */
  datatype Classification = Classification(predictedCategory: Category, confidence: real)

  /** `{ ...article, score }`: an article with its retrieval score. */
  datatype Scored = Scored(article: Article, score: real)

  /** The composer's output: draft text, combined confidence and cited article ids. */
  datatype DraftReply = DraftReply(draftReply: string, confidence: real, citations: seq<string>)

  /** Why an operation left the store unchanged. */
  datatype Failure =
    | MissingFields      // a required form field is empty
    | NotSignedIn        // `currentUser` is null, so reading its id throws
    | TicketNotFound     // the ticket lookup found nothing, so touching it throws
    | InvalidCredentials
    | UserExists
    | NotConfirmed       // the confirmation dialog was dismissed

  /** `Math.min(x, y)` on exact reals. */
  function MinReal(x: real, y: real): real
  {
    if x <= y then x else y
  }
}
