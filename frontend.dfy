/** The browser-only helpdesk (`app_1.js`): the whole store lives in the page,
    and every new ticket runs through the agentic triage pipeline —
    classification, knowledge-base retrieval, a drafted reply — followed by
    the decision to auto-resolve it or to hand it to a human agent.
    Classification, retrieval, drafting and the auto-close or (when an agent
    exists) the hand-over are written to the audit log under the suggestion's
    trace id; storing the suggestion writes no entry, and the TICKET_CREATED
    entry before the run has a trace id of its own. */
module Frontend {
  import opened Wrappers
  import opened Seqs
  import opened Text
  import opened Records
  import opened Store
  import opened Classifier
  import opened Retriever
  import opened Composer

  /** `trace-${Date.now()}`. */
  function TraceId(now: nat): string
  {
    "trace-" + DecimalString(now)
  }

  /** `traceId || trace-${Date.now()}`: the given trace id unless it is absent or empty. */
  function TraceOrNew(traceId: Option<string>, now: nat): string
  {
    if traceId.Some? && traceId.value != "" then traceId.value else TraceId(now)
  }

  /** The entry `addAuditLog` appends to a log of `count` entries. */
  function NewEntry(count: nat, ticketId: string, actor: Actor, action: Action, meta: Meta,
                    traceId: string, stamp: string): AuditEntry
  {
    AuditEntry(DecimalString(count + 1), ticketId, traceId, actor, action, meta, stamp)
  }

  /** One audit event still to be logged: its action and its meta. */
  datatype Event = Event(action: Action, meta: Meta)

  /** `logs` after `addAuditLog` was called once per event, in order, all with
      the same ticket, actor and trace id. */
  function Logged(logs: seq<AuditEntry>, ticketId: string, actor: Actor, traceId: string,
                  events: seq<Event>, stamp: string): (r: seq<AuditEntry>)
    ensures |r| == |logs| + |events|
  {
    if events == [] then logs
    else
      var prior := Logged(logs, ticketId, actor, traceId, events[..|events| - 1], stamp);
      var e := events[|events| - 1];
      prior + [NewEntry(|prior|, ticketId, actor, e.action, e.meta, traceId, stamp)]
  }

  /** Logging keeps the old entries and appends one entry per event, in order,
      numbered on from the old log. */
  lemma {:induction false} LoggedSpec(logs: seq<AuditEntry>, ticketId: string, actor: Actor, traceId: string,
                                      events: seq<Event>, stamp: string)
    ensures var r := Logged(logs, ticketId, actor, traceId, events, stamp);
            |r| == |logs| + |events| && r[..|logs|] == logs &&
            forall i :: 0 <= i < |events| ==>
              r[|logs| + i] == NewEntry(|logs| + i, ticketId, actor, events[i].action, events[i].meta, traceId, stamp)
  {
    if events != [] {
      var front := events[..|events| - 1];
      LoggedSpec(logs, ticketId, actor, traceId, front, stamp);
      var prior := Logged(logs, ticketId, actor, traceId, front, stamp);
      var r := Logged(logs, ticketId, actor, traceId, events, stamp);
      assert r == prior + [NewEntry(|prior|, ticketId, actor, events[|events| - 1].action, events[|events| - 1].meta, traceId, stamp)];
      forall i | 0 <= i < |events|
        ensures r[|logs| + i] == NewEntry(|logs| + i, ticketId, actor, events[i].action, events[i].meta, traceId, stamp)
      {
        if i < |front| {
          assert r[|logs| + i] == prior[|logs| + i];
          assert front[i] == events[i];
        }
      }
    }
  }

  /** Logging one more event appends exactly its entry. */
  lemma LoggedSnoc(logs: seq<AuditEntry>, ticketId: string, actor: Actor, traceId: string,
                   events: seq<Event>, e: Event, stamp: string)
    ensures Logged(logs, ticketId, actor, traceId, events + [e], stamp) ==
            Logged(logs, ticketId, actor, traceId, events, stamp) +
            [NewEntry(|logs| + |events|, ticketId, actor, e.action, e.meta, traceId, stamp)]
  {
    assert (events + [e])[..|events|] == events;
  }

  /** The three pipeline entries, spelled out. */
  lemma LoggedPipeline(logs: seq<AuditEntry>, ticketId: string, traceId: string, an: Analysis, stamp: string)
    ensures var es := PipelineEvents(an);
            Logged(logs, ticketId, SystemActor, traceId, es, stamp) ==
            logs + [NewEntry(|logs|, ticketId, SystemActor, es[0].action, es[0].meta, traceId, stamp)]
                 + [NewEntry(|logs| + 1, ticketId, SystemActor, es[1].action, es[1].meta, traceId, stamp)]
                 + [NewEntry(|logs| + 2, ticketId, SystemActor, es[2].action, es[2].meta, traceId, stamp)]
  {
    var es := PipelineEvents(an);
    LoggedSnoc(logs, ticketId, SystemActor, traceId, [], es[0], stamp);
    assert [] + [es[0]] == es[..1];
    LoggedSnoc(logs, ticketId, SystemActor, traceId, es[..1], es[1], stamp);
    assert es[..1] + [es[1]] == es[..2];
    LoggedSnoc(logs, ticketId, SystemActor, traceId, es[..2], es[2], stamp);
    assert es[..2] + [es[2]] == es;
  }

  /** Logging two batches of events one after the other logs them all. */
  lemma {:induction false} LoggedAppend(logs: seq<AuditEntry>, ticketId: string, actor: Actor, traceId: string,
                                        first: seq<Event>, second: seq<Event>, stamp: string)
    ensures Logged(Logged(logs, ticketId, actor, traceId, first, stamp), ticketId, actor, traceId, second, stamp) ==
            Logged(logs, ticketId, actor, traceId, first + second, stamp)
    decreases |second|
  {
    if second != [] {
      var front := second[..|second| - 1];
      var e := second[|second| - 1];
      LoggedAppend(logs, ticketId, actor, traceId, first, front, stamp);
      assert first + second == (first + front) + [e];
      LoggedSnoc(logs, ticketId, actor, traceId, first + front, e, stamp);
    } else {
      assert first + second == first;
    }
  }

  // ---------------------------------------------------------------------------
  // The triage run (`performAgenticTriage`) as a function of the store
  // ---------------------------------------------------------------------------

  /** What the three pipeline stages produce for one ticket. */
  datatype Analysis = Analysis(classification: Classification, kb: seq<Scored>, draft: DraftReply)

  function Analyse(ticket: Ticket, articles: seq<Article>): Analysis
  {
    var text := TicketText(ticket);
    var classification := Classify(text);
    var kb := Retrieve(text, articles);
    Analysis(classification, kb, Compose(kb, classification))
  }

  /** The auto-close rule: enabled, and the draft is at least as confident as the threshold. */
  predicate AutoCloses(config: Config, confidence: real)
  {
    config.autoCloseEnabled && confidence >= config.confidenceThreshold
  }

  /** The ticket after the decision: resolved with the draft posted as an AI
      reply, or waiting for a human and assigned to the first agent, if any. */
  function Decided(ticket: Ticket, users: seq<User>, draft: DraftReply, autoClose: bool,
                   now: nat, stamp: string): Ticket
  {
    if autoClose then
      ticket.(status := Resolved,
              replies := ticket.replies + [Reply(DecimalString(now), "system", draft.draftReply, stamp, true)])
    else
      var agent := FirstAgent(users);
      ticket.(status := WaitingHuman, assignee := if agent.Some? then Some(agent.value.id) else ticket.assignee)
  }

  /** The audit events of the three pipeline stages. */
  function PipelineEvents(an: Analysis): seq<Event>
  {
    [Event(AgentClassified, ClassifiedMeta(an.classification.predictedCategory, an.classification.confidence)),
     Event(KbRetrieved, RetrievedMeta(ArticleIds(an.kb), Scores(an.kb))),
     Event(DraftGenerated, DraftMeta(Utf16Length(an.draft.draftReply)))]
  }

  /** The audit event of the decision, if any. */
  function DecisionEvents(an: Analysis, users: seq<User>, autoClose: bool): seq<Event>
  {
    var agent := FirstAgent(users);
    if autoClose then [Event(AutoClosed, ConfidenceMeta(an.draft.confidence))]
    else if agent.Some? then [Event(AssignedToHuman, AssigneeMeta(agent.value.id))]
    else []
  }

  /** The audit events of one run, in the order they are logged. */
  function TriageEvents(an: Analysis, users: seq<User>, autoClose: bool): seq<Event>
  {
    PipelineEvents(an) + DecisionEvents(an, users, autoClose)
  }

  /** The parts of the store a triage run changes. */
  datatype TriageState = TriageState(tickets: seq<Ticket>, suggestions: seq<Suggestion>, logs: seq<AuditEntry>)

  /** One run on the ticket at `k`, given the outcome `an` of its pipeline:
      the suggestion is recorded, the decision applied to the ticket, and every
      step logged under the trace id of the clock reading `now`. */
  function TriageAt(tickets: seq<Ticket>, users: seq<User>, suggestions: seq<Suggestion>, logs: seq<AuditEntry>,
                   config: Config, ticketId: string, now: nat, stamp: string, k: nat, an: Analysis): TriageState
    requires k < |tickets|
  {
    var traceId := TraceId(now);
    var autoClose := AutoCloses(config, an.draft.confidence);
    var suggestion := Suggestion(DecimalString(|suggestions| + 1), ticketId, an.classification.predictedCategory,
                                 ArticleIds(an.kb), an.draft.draftReply, an.draft.confidence, autoClose, stamp, traceId);
    TriageState(tickets[k := Decided(tickets[k], users, an.draft, autoClose, now, stamp)],
                suggestions + [suggestion],
                Logged(logs, ticketId, SystemActor, traceId, TriageEvents(an, users, autoClose), stamp))
  }

  /** Reference definition of one triage run on the ticket `ticketId`, the clock
      reading `now` and the ISO time stamp `stamp`. */
  function Triage(tickets: seq<Ticket>, users: seq<User>, articles: seq<Article>, suggestions: seq<Suggestion>,
                  logs: seq<AuditEntry>, config: Config, ticketId: string, now: nat, stamp: string): Result<TriageState, Failure>
  {
    match FindTicket(tickets, ticketId)
    case None => Err(TicketNotFound)
    case Some(k) => Ok(TriageAt(tickets, users, suggestions, logs, config, ticketId, now, stamp, k, Analyse(tickets[k], articles)))
  }

  /** A run on the ticket found at `k` whose pipeline produced `an`. */
  lemma TriageIs(tickets: seq<Ticket>, users: seq<User>, articles: seq<Article>, suggestions: seq<Suggestion>,
                 logs: seq<AuditEntry>, config: Config, ticketId: string, now: nat, stamp: string, k: nat, an: Analysis)
    requires FindTicket(tickets, ticketId) == Some(k) && an == Analyse(tickets[k], articles)
    ensures Triage(tickets, users, articles, suggestions, logs, config, ticketId, now, stamp) ==
            Ok(TriageAt(tickets, users, suggestions, logs, config, ticketId, now, stamp, k, an))
  {
  }

  /** A run fails exactly when no ticket has the id; then nothing changes. */
  lemma TriageNotFound(tickets: seq<Ticket>, users: seq<User>, articles: seq<Article>, suggestions: seq<Suggestion>,
                       logs: seq<AuditEntry>, config: Config, ticketId: string, now: nat, stamp: string)
    ensures Triage(tickets, users, articles, suggestions, logs, config, ticketId, now, stamp).Err? <==>
            forall t :: t in tickets ==> t.id != ticketId
  {
  }

  /** A run on the id of a ticket just appended finds a ticket. */
  lemma TriageAppended(tickets: seq<Ticket>, t: Ticket, users: seq<User>, articles: seq<Article>, suggestions: seq<Suggestion>,
                       logs: seq<AuditEntry>, config: Config, now: nat, stamp: string)
    requires t in tickets
    ensures Triage(tickets, users, articles, suggestions, logs, config, t.id, now, stamp).Ok?
  {
  }

  /** Audit entries numbered "1", "2", … in order, as `String(auditLogs.length + 1)`
      numbers them. */
  ghost predicate LogsNumbered(logs: seq<AuditEntry>)
  {
    forall i :: 0 <= i < |logs| ==> logs[i].id == DecimalString(i + 1)
  }

  /** A run on the ticket at `k` changes only that ticket, appends exactly one
      suggestion, and appends audit entries after the old ones, which it leaves
      untouched, numbering them on. */
  lemma {:induction false} TriageAtFrame(tickets: seq<Ticket>, users: seq<User>, suggestions: seq<Suggestion>,
                                         logs: seq<AuditEntry>, config: Config, ticketId: string, now: nat, stamp: string,
                                         k: nat, an: Analysis)
    requires k < |tickets|
    ensures var s := TriageAt(tickets, users, suggestions, logs, config, ticketId, now, stamp, k, an);
            |s.tickets| == |tickets| && s.tickets[k].id == tickets[k].id &&
            (forall i :: 0 <= i < |tickets| && i != k ==> s.tickets[i] == tickets[i]) &&
            |s.suggestions| == |suggestions| + 1 && s.suggestions[..|suggestions|] == suggestions &&
            s.suggestions[|suggestions|].id == DecimalString(|suggestions| + 1) &&
            s.suggestions[|suggestions|].ticketId == ticketId &&
            |s.logs| > |logs| && s.logs[..|logs|] == logs &&
            (LogsNumbered(logs) ==> LogsNumbered(s.logs))
  {
    var s := TriageAt(tickets, users, suggestions, logs, config, ticketId, now, stamp, k, an);
    var events := TriageEvents(an, users, AutoCloses(config, an.draft.confidence));
    LoggedSpec(logs, ticketId, SystemActor, TraceId(now), events, stamp);
    if LogsNumbered(logs) {
      forall i | 0 <= i < |s.logs| ensures s.logs[i].id == DecimalString(i + 1) {
        if i < |logs| {
          assert s.logs[i] == s.logs[..|logs|][i] == logs[i];
        } else {
          var j := i - |logs|;
          assert s.logs[|logs| + j] == NewEntry(|logs| + j, ticketId, SystemActor, events[j].action, events[j].meta, TraceId(now), stamp);
        }
      }
    }
  }

  /** A run changes only the first ticket with the id, appends exactly one
      suggestion, and appends audit entries after the old ones, which it leaves
      untouched, numbering them on. */
  lemma TriageFrame(tickets: seq<Ticket>, users: seq<User>, articles: seq<Article>, suggestions: seq<Suggestion>,
                    logs: seq<AuditEntry>, config: Config, ticketId: string, now: nat, stamp: string)
    requires FindTicket(tickets, ticketId).Some?
    ensures var k := FindTicket(tickets, ticketId).value;
            var s := Triage(tickets, users, articles, suggestions, logs, config, ticketId, now, stamp).value;
            |s.tickets| == |tickets| && s.tickets[k].id == ticketId &&
            (forall i :: 0 <= i < |tickets| && i != k ==> s.tickets[i] == tickets[i]) &&
            |s.suggestions| == |suggestions| + 1 && s.suggestions[..|suggestions|] == suggestions &&
            s.suggestions[|suggestions|].id == DecimalString(|suggestions| + 1) &&
            s.suggestions[|suggestions|].ticketId == ticketId &&
            |s.logs| > |logs| && s.logs[..|logs|] == logs &&
            (LogsNumbered(logs) ==> LogsNumbered(s.logs))
  {
    var k := FindTicket(tickets, ticketId).value;
    var an := Analyse(tickets[k], articles);
    TriageIs(tickets, users, articles, suggestions, logs, config, ticketId, now, stamp, k, an);
    TriageAtFrame(tickets, users, suggestions, logs, config, ticketId, now, stamp, k, an);
  }

  /** The trace of a run on the ticket at `k`: the entries appended are those
      of the pipeline and then of the decision, all system entries about the
      ticket under the trace id the suggestion carries. */
  lemma TriageAtTrace(tickets: seq<Ticket>, users: seq<User>, suggestions: seq<Suggestion>,
                      logs: seq<AuditEntry>, config: Config, ticketId: string, now: nat, stamp: string,
                      k: nat, an: Analysis)
    requires k < |tickets|
    ensures var s := TriageAt(tickets, users, suggestions, logs, config, ticketId, now, stamp, k, an);
            var added := s.logs[|logs|..];
            var auto := s.suggestions[|suggestions|].autoClosed;
            |added| == (if auto || FirstAgent(users).Some? then 4 else 3) &&
            added[0].action == AgentClassified && added[1].action == KbRetrieved && added[2].action == DraftGenerated &&
            (auto ==> added[3].action == AutoClosed) &&
            (!auto && FirstAgent(users).Some? ==>
               added[3].action == AssignedToHuman && added[3].meta == AssigneeMeta(FirstAgent(users).value.id))
    ensures var s := TriageAt(tickets, users, suggestions, logs, config, ticketId, now, stamp, k, an);
            forall e :: e in s.logs[|logs|..] ==>
              e.traceId == TraceId(now) == s.suggestions[|suggestions|].traceId &&
              e.ticketId == ticketId && e.actor == SystemActor
  {
    var s := TriageAt(tickets, users, suggestions, logs, config, ticketId, now, stamp, k, an);
    var events := TriageEvents(an, users, AutoCloses(config, an.draft.confidence));
    var added := s.logs[|logs|..];
    LoggedSpec(logs, ticketId, SystemActor, TraceId(now), events, stamp);
    assert |added| == |events|;
    forall i | 0 <= i < |added| ensures added[i] == NewEntry(|logs| + i, ticketId, SystemActor, events[i].action, events[i].meta, TraceId(now), stamp) {
      assert added[i] == s.logs[|logs| + i];
    }
  }

  /** The trace of a run: the entries appended are AGENT_CLASSIFIED,
      KB_RETRIEVED and DRAFT_GENERATED, then AUTO_CLOSED when the ticket was
      auto-resolved, or ASSIGNED_TO_HUMAN only when an agent exists; all are
      system entries about the ticket carrying the one trace id of the run,
      which the suggestion carries too. */
  lemma TriageTrace(tickets: seq<Ticket>, users: seq<User>, articles: seq<Article>, suggestions: seq<Suggestion>,
                    logs: seq<AuditEntry>, config: Config, ticketId: string, now: nat, stamp: string)
    requires FindTicket(tickets, ticketId).Some?
    ensures var s := Triage(tickets, users, articles, suggestions, logs, config, ticketId, now, stamp).value;
            var added := s.logs[|logs|..];
            var auto := s.suggestions[|suggestions|].autoClosed;
            |added| == (if auto || FirstAgent(users).Some? then 4 else 3) &&
            added[0].action == AgentClassified && added[1].action == KbRetrieved && added[2].action == DraftGenerated &&
            (auto ==> added[3].action == AutoClosed) &&
            (!auto && FirstAgent(users).Some? ==>
               added[3].action == AssignedToHuman && added[3].meta == AssigneeMeta(FirstAgent(users).value.id))
    ensures var s := Triage(tickets, users, articles, suggestions, logs, config, ticketId, now, stamp).value;
            forall e :: e in s.logs[|logs|..] ==>
              e.traceId == TraceId(now) == s.suggestions[|suggestions|].traceId &&
              e.ticketId == ticketId && e.actor == SystemActor
  {
    var k := FindTicket(tickets, ticketId).value;
    var an := Analyse(tickets[k], articles);
    TriageIs(tickets, users, articles, suggestions, logs, config, ticketId, now, stamp, k, an);
    TriageAtTrace(tickets, users, suggestions, logs, config, ticketId, now, stamp, k, an);
  }

  /** The auto-close branch: the ticket becomes resolved and gains exactly one
      reply, an AI reply from `system` carrying the draft; its assignee is kept,
      and the suggestion records the auto-close. */
  lemma TriageAutoClose(tickets: seq<Ticket>, users: seq<User>, articles: seq<Article>, suggestions: seq<Suggestion>,
                        logs: seq<AuditEntry>, config: Config, ticketId: string, now: nat, stamp: string)
    requires FindTicket(tickets, ticketId).Some?
    requires var k := FindTicket(tickets, ticketId).value;
             AutoCloses(config, Analyse(tickets[k], articles).draft.confidence)
    ensures var k := FindTicket(tickets, ticketId).value;
            var s := Triage(tickets, users, articles, suggestions, logs, config, ticketId, now, stamp).value;
            var draft := Analyse(tickets[k], articles).draft;
            s.tickets[k] == tickets[k].(status := Resolved, replies := s.tickets[k].replies) &&
            s.tickets[k].replies == tickets[k].replies + [Reply(DecimalString(now), "system", draft.draftReply, stamp, true)] &&
            s.suggestions[|suggestions|].autoClosed &&
            s.suggestions[|suggestions|].draftReply == draft.draftReply
  {
  }

  /** The hand-over branch: the ticket waits for a human, gains no reply, and
      is assigned to the first agent when there is one, its old assignee kept
      otherwise; the suggestion is not marked auto-closed. */
  lemma TriageToHuman(tickets: seq<Ticket>, users: seq<User>, articles: seq<Article>, suggestions: seq<Suggestion>,
                      logs: seq<AuditEntry>, config: Config, ticketId: string, now: nat, stamp: string)
    requires FindTicket(tickets, ticketId).Some?
    requires var k := FindTicket(tickets, ticketId).value;
             !AutoCloses(config, Analyse(tickets[k], articles).draft.confidence)
    ensures var k := FindTicket(tickets, ticketId).value;
            var s := Triage(tickets, users, articles, suggestions, logs, config, ticketId, now, stamp).value;
            s.tickets[k] == tickets[k].(status := WaitingHuman, assignee := s.tickets[k].assignee) &&
            (FirstAgent(users).Some? ==> s.tickets[k].assignee == Some(FirstAgent(users).value.id)) &&
            (FirstAgent(users).None? ==> s.tickets[k].assignee == tickets[k].assignee) &&
            !s.suggestions[|suggestions|].autoClosed
  {
  }

  /** The suggestion's confidence lies in [0.3, 0.95] and never falls below the
      classifier's; without a retrieved article it is the classifier's, at most
      0.9, so a threshold above 0.9 hands every such ticket to a human. The
      suggestion cites at most three articles. */
  lemma TriageConfidence(tickets: seq<Ticket>, users: seq<User>, articles: seq<Article>, suggestions: seq<Suggestion>,
                         logs: seq<AuditEntry>, config: Config, ticketId: string, now: nat, stamp: string)
    requires FindTicket(tickets, ticketId).Some?
    ensures var k := FindTicket(tickets, ticketId).value;
            var an := Analyse(tickets[k], articles);
            var s := Triage(tickets, users, articles, suggestions, logs, config, ticketId, now, stamp).value.suggestions[|suggestions|];
            0.3 <= an.classification.confidence <= s.confidence <= DraftCap &&
            |s.articleIds| <= TopK &&
            (s.articleIds == [] ==> s.confidence == an.classification.confidence <= 0.9 &&
                                    (config.confidenceThreshold > 0.9 ==> !s.autoClosed))
  {
    var k := FindTicket(tickets, ticketId).value;
    var text := TicketText(tickets[k]);
    var an := Analyse(tickets[k], articles);
    ClassifyConfidenceBounds(text);
    RetrieveSound(text, articles);
    if an.kb != [] {
      ComposeConfidenceBounds(an.kb, an.classification);
    }
  }

  // ---------------------------------------------------------------------------
  // The store
  // ---------------------------------------------------------------------------

  /** The empty-dashboard value of the AI resolution rate. */
  const EmptyRate: int := 0

  class Helpdesk {
    var users: seq<User>
    var tickets: seq<Ticket>
    var kbArticles: seq<Article>
    var agentSuggestions: seq<Suggestion>
    var auditLogs: seq<AuditEntry>
    var config: Config
    /** `currentUser`: the signed-in user, or none. */
    var currentUser: Option<Session>

    /** A store loaded with the given data and nobody signed in. */
    constructor(users: seq<User>, tickets: seq<Ticket>, kbArticles: seq<Article>, agentSuggestions: seq<Suggestion>,
                auditLogs: seq<AuditEntry>, config: Config)
      ensures this.users == users && this.tickets == tickets && this.kbArticles == kbArticles
      ensures this.agentSuggestions == agentSuggestions && this.auditLogs == auditLogs
      ensures this.config == config && currentUser == None
    {
      this.users := users;
      this.tickets := tickets;
      this.kbArticles := kbArticles;
      this.agentSuggestions := agentSuggestions;
      this.auditLogs := auditLogs;
      this.config := config;
      currentUser := None;
    }

    /** `addAuditLog`: appends exactly one entry, numbered after the existing
        ones, under the given trace id or a fresh one from the clock. */
    method AddAuditLog(ticketId: string, actor: Actor, action: Action, meta: Meta, traceId: Option<string>,
                       now: nat, stamp: string)
      modifies this`auditLogs
      ensures auditLogs == old(auditLogs) + [NewEntry(|old(auditLogs)|, ticketId, actor, action, meta, TraceOrNew(traceId, now), stamp)]
    {
      var log := AuditEntry(DecimalString(|auditLogs| + 1), ticketId, TraceOrNew(traceId, now), actor, action, meta, stamp);
      auditLogs := auditLogs + [log];
    }

    /** Steps 1 to 3 of `performAgenticTriage`: classification, retrieval and
        the draft, each logged under the run's trace id. */
    method RunPipeline(ticket: Ticket, ticketId: string, traceId: string, now: nat, stamp: string) returns (an: Analysis)
      requires traceId != ""
      modifies this`auditLogs
      ensures an == Analyse(ticket, kbArticles)
      ensures auditLogs == Logged(old(auditLogs), ticketId, SystemActor, traceId, PipelineEvents(an), stamp)
    {
      ghost var logs0 := auditLogs;
      var classification := ClassifyTicket(ticket);
      AddAuditLog(ticketId, SystemActor, AgentClassified,
                  ClassifiedMeta(classification.predictedCategory, classification.confidence), Some(traceId), now, stamp);
      var kbResults := RetrieveKBArticles(ticket, kbArticles);
      AddAuditLog(ticketId, SystemActor, KbRetrieved, RetrievedMeta(ArticleIds(kbResults), Scores(kbResults)),
                  Some(traceId), now, stamp);
      var draft := GenerateReply(kbResults, classification);
      AddAuditLog(ticketId, SystemActor, DraftGenerated, DraftMeta(Utf16Length(draft.draftReply)), Some(traceId), now, stamp);
      an := Analysis(classification, kbResults, draft);
      LoggedPipeline(logs0, ticketId, traceId, an, stamp);
    }

    /** Steps 4 and 5 of `performAgenticTriage` on the ticket at `k`: records the
        suggestion, then auto-resolves the ticket or hands it to the first agent. */
    method Decide(k: nat, an: Analysis, ticketId: string, traceId: string, now: nat, stamp: string) returns (autoClose: bool)
      requires k < |tickets| && traceId != ""
      modifies this`tickets, this`agentSuggestions, this`auditLogs
      ensures autoClose == AutoCloses(config, an.draft.confidence)
      ensures tickets == old(tickets)[k := Decided(old(tickets)[k], users, an.draft, autoClose, now, stamp)]
      ensures agentSuggestions == old(agentSuggestions) +
                [Suggestion(DecimalString(|old(agentSuggestions)| + 1), ticketId, an.classification.predictedCategory,
                            ArticleIds(an.kb), an.draft.draftReply, an.draft.confidence, autoClose, stamp, traceId)]
      ensures auditLogs == Logged(old(auditLogs), ticketId, SystemActor, traceId, DecisionEvents(an, users, autoClose), stamp)
    {
      ghost var logs0 := auditLogs;
      var draft := an.draft;
      var suggestion := Suggestion(DecimalString(|agentSuggestions| + 1), ticketId, an.classification.predictedCategory,
                                   ArticleIds(an.kb), draft.draftReply, draft.confidence, false, stamp, traceId);
      agentSuggestions := agentSuggestions + [suggestion];
      var ticket := tickets[k];
      if config.autoCloseEnabled && draft.confidence >= config.confidenceThreshold {
        autoClose := true;
        ticket := ticket.(status := Resolved);
        ticket := ticket.(replies := ticket.replies + [Reply(DecimalString(now), "system", draft.draftReply, stamp, true)]);
        tickets := tickets[k := ticket];
        var last := |agentSuggestions| - 1;
        agentSuggestions := agentSuggestions[last := agentSuggestions[last].(autoClosed := true)];
        var e := Event(AutoClosed, ConfidenceMeta(draft.confidence));
        AddAuditLog(ticketId, SystemActor, e.action, e.meta, Some(traceId), now, stamp);
        LoggedSnoc(logs0, ticketId, SystemActor, traceId, [], e, stamp);
      } else {
        autoClose := false;
        ticket := ticket.(status := WaitingHuman);
        var availableAgent := FirstAgent(users);
        if availableAgent.Some? {
          ticket := ticket.(assignee := Some(availableAgent.value.id));
          var e := Event(AssignedToHuman, AssigneeMeta(availableAgent.value.id));
          AddAuditLog(ticketId, SystemActor, e.action, e.meta, Some(traceId), now, stamp);
          LoggedSnoc(logs0, ticketId, SystemActor, traceId, [], e, stamp);
        }
        tickets := tickets[k := ticket];
      }
    }

    /** `performAgenticTriage`: runs the pipeline on the ticket, logging each
        step, records the suggestion and applies the decision. The result says
        whether the ticket was auto-resolved. */
    method PerformAgenticTriage(ticketId: string, now: nat, stamp: string) returns (r: Result<bool, Failure>)
      modifies this`tickets, this`agentSuggestions, this`auditLogs
      ensures var t := Triage(old(tickets), old(users), old(kbArticles), old(agentSuggestions), old(auditLogs), old(config), ticketId, now, stamp);
              t.Err? ==> r == Err(t.error) && tickets == old(tickets) &&
                         agentSuggestions == old(agentSuggestions) && auditLogs == old(auditLogs)
      ensures var t := Triage(old(tickets), old(users), old(kbArticles), old(agentSuggestions), old(auditLogs), old(config), ticketId, now, stamp);
              t.Ok? ==> tickets == t.value.tickets && agentSuggestions == t.value.suggestions &&
                        auditLogs == t.value.logs && r == Ok(t.value.suggestions[|old(agentSuggestions)|].autoClosed)
    {
      var found := FindTicket(tickets, ticketId);
      if found.None? {
        return Err(TicketNotFound);
      }
      var k := found.value;
      var autoClose, an := TriageFound(k, ticketId, now, stamp);
      TriageIs(old(tickets), old(users), old(kbArticles), old(agentSuggestions), old(auditLogs), old(config), ticketId, now, stamp, k, an);
      r := Ok(autoClose);
    }

    /** Steps 1 to 5 of `performAgenticTriage` on the ticket at `k`, whose
        pipeline produces `an`. */
    method TriageFound(k: nat, ticketId: string, now: nat, stamp: string) returns (autoClose: bool, ghost an: Analysis)
      requires k < |tickets|
      modifies this`tickets, this`agentSuggestions, this`auditLogs
      ensures an == Analyse(old(tickets)[k], kbArticles)
      ensures var s := TriageAt(old(tickets), users, old(agentSuggestions), old(auditLogs), config, ticketId, now, stamp, k, an);
              tickets == s.tickets && agentSuggestions == s.suggestions && auditLogs == s.logs &&
              autoClose == AutoCloses(config, an.draft.confidence)
    {
      var analysis := RunPipeline(tickets[k], ticketId, TraceId(now), now, stamp);
      an := analysis;
      autoClose := Conclude(k, analysis, ticketId, now, stamp, old(auditLogs));
    }

    /** Steps 4 and 5 once the pipeline has logged its three entries behind
        `logs0`: the whole triage run on the ticket at `k` for the analysis `an`. */
    method Conclude(k: nat, an: Analysis, ticketId: string, now: nat, stamp: string, ghost logs0: seq<AuditEntry>)
      returns (autoClose: bool)
      requires k < |tickets|
      requires auditLogs == Logged(logs0, ticketId, SystemActor, TraceId(now), PipelineEvents(an), stamp)
      modifies this`tickets, this`agentSuggestions, this`auditLogs
      ensures var s := TriageAt(old(tickets), users, old(agentSuggestions), logs0, config, ticketId, now, stamp, k, an);
              tickets == s.tickets && agentSuggestions == s.suggestions && auditLogs == s.logs &&
              autoClose == AutoCloses(config, an.draft.confidence)
    {
      var traceId := TraceId(now);
      autoClose := Decide(k, an, ticketId, traceId, now, stamp);
      LoggedAppend(logs0, ticketId, SystemActor, traceId, PipelineEvents(an), DecisionEvents(an, users, autoClose), stamp);
    }

    /** `createTicket`: rejects an empty title or description, appends the new
        `open` ticket numbered after the existing ones (category `other` when
        the category select is missing), logs TICKET_CREATED
        under a trace id of its own, and runs the triage on the new id (at
        clock reading `triageNow`). */
    method CreateTicket(title: string, description: string, category: Option<Category>, attachment: string,
                        now: nat, stamp: string, triageNow: nat, triageStamp: string) returns (r: Result<string, Failure>)
      modifies this`tickets, this`agentSuggestions, this`auditLogs
      ensures title == "" || description == "" ==> r == Err(MissingFields)
      ensures title != "" && description != "" && old(currentUser).None? ==> r == Err(NotSignedIn)
      ensures r.Err? ==> tickets == old(tickets) && agentSuggestions == old(agentSuggestions) && auditLogs == old(auditLogs)
      ensures title != "" && description != "" && old(currentUser).Some? ==>
              var id := DecimalString(|old(tickets)| + 1);
              var created := Ticket(id, title, description, if category.Some? then category.value else Other, Open, old(currentUser).value.id, None, stamp, [],
                                    if attachment != "" then [attachment] else []);
              var logs := old(auditLogs) + [NewEntry(|old(auditLogs)|, id, SystemActor, TicketCreated, NoMeta, TraceId(now), stamp)];
              var t := Triage(old(tickets) + [created], users, kbArticles, old(agentSuggestions), logs, config, id, triageNow, triageStamp);
              r == Ok(id) && t.Ok? &&
              tickets == t.value.tickets && agentSuggestions == t.value.suggestions && auditLogs == t.value.logs
    {
      if title == "" || description == "" {
        return Err(MissingFields);
      }
      if currentUser.None? {
        return Err(NotSignedIn);
      }
      var c := if category.Some? then category.value else Other;
      var ticketId := OpenTicket(currentUser.value.id, title, description, c, attachment, now, stamp, triageNow, triageStamp);
      r := Ok(ticketId);
    }

    /** The part of `createTicket` after its checks, for the signed-in user `userId`. */
    method OpenTicket(userId: string, title: string, description: string, category: Category, attachment: string,
                      now: nat, stamp: string, triageNow: nat, triageStamp: string) returns (ticketId: string)
      modifies this`tickets, this`agentSuggestions, this`auditLogs
      ensures var created := Ticket(ticketId, title, description, category, Open, userId, None, stamp, [],
                                    if attachment != "" then [attachment] else []);
              var logs := old(auditLogs) + [NewEntry(|old(auditLogs)|, ticketId, SystemActor, TicketCreated, NoMeta, TraceId(now), stamp)];
              var t := Triage(old(tickets) + [created], old(users), old(kbArticles), old(agentSuggestions), logs, old(config), ticketId, triageNow, triageStamp);
              ticketId == DecimalString(|old(tickets)| + 1) && t.Ok? &&
              tickets == t.value.tickets && agentSuggestions == t.value.suggestions && auditLogs == t.value.logs
    {
      ticketId := DecimalString(|tickets| + 1);
      var newTicket := Ticket(ticketId, title, description, category, Open, userId, None, stamp, [],
                              if attachment != "" then [attachment] else []);
      tickets := tickets + [newTicket];
      AddAuditLog(ticketId, SystemActor, TicketCreated, NoMeta, None, now, stamp);
      ghost var gT, gU, gK, gS, gL, gC := tickets, users, kbArticles, agentSuggestions, auditLogs, config;
      assert gT == old(tickets) + [newTicket];
      assert gL == old(auditLogs) + [NewEntry(|old(auditLogs)|, ticketId, SystemActor, TicketCreated, NoMeta, TraceId(now), stamp)];
      assert gU == old(users) && gK == old(kbArticles) && gS == old(agentSuggestions) && gC == old(config);
      TriageAppended(tickets, newTicket, users, kbArticles, agentSuggestions, auditLogs, config, triageNow, triageStamp);
      ghost var gt := Triage(gT, gU, gK, gS, gL, gC, ticketId, triageNow, triageStamp);
      var outcome := PerformAgenticTriage(ticketId, triageNow, triageStamp);
      assert gt.Ok?;
      assert tickets == gt.value.tickets;
      assert agentSuggestions == gt.value.suggestions;
      assert auditLogs == gt.value.logs;
    }

    /** `sendReply`: rejects a message that is empty once trimmed; otherwise the
        first ticket with the id gains exactly one human reply from the signed-in
        user, its status changes only when a new status was chosen, and one
        REPLY_SENT entry attributed to the agent records the resulting status. */
    method SendReply(ticketId: string, message: string, newStatus: Option<Status>, now: nat, stamp: string)
      returns (r: Result<(), Failure>)
      modifies this`tickets, this`auditLogs
      ensures Trim(message) == "" ==> r == Err(MissingFields)
      ensures Trim(message) != "" && currentUser.None? ==> r == Err(NotSignedIn)
      ensures Trim(message) != "" && currentUser.Some? && FindTicket(old(tickets), ticketId).None? ==> r == Err(TicketNotFound)
      ensures r.Err? ==> tickets == old(tickets) && auditLogs == old(auditLogs)
      ensures r.Ok? <==> Trim(message) != "" && currentUser.Some? && FindTicket(old(tickets), ticketId).Some?
      ensures r.Ok? ==>
              var k := FindTicket(old(tickets), ticketId).value;
              var before := old(tickets)[k];
              var status := if newStatus.Some? then newStatus.value else before.status;
              var reply := Reply(DecimalString(now), currentUser.value.id, Trim(message), stamp, false);
              tickets == old(tickets)[k := before.(replies := before.replies + [reply], status := status)] &&
              auditLogs == old(auditLogs) + [NewEntry(|old(auditLogs)|, ticketId, AgentActor, ReplySent, StatusMeta(status), TraceId(now), stamp)]
    {
      var text := Trim(message);
      if text == "" {
        return Err(MissingFields);
      }
      var found := FindTicket(tickets, ticketId);
      if currentUser.None? {
        return Err(NotSignedIn);
      }
      var reply := Reply(DecimalString(now), currentUser.value.id, text, stamp, false);
      if found.None? {
        return Err(TicketNotFound);
      }
      var k := found.value;
      var ticket := tickets[k];
      ticket := ticket.(replies := ticket.replies + [reply]);
      if newStatus.Some? {
        ticket := ticket.(status := newStatus.value);
      }
      tickets := tickets[k := ticket];
      AddAuditLog(ticketId, AgentActor, ReplySent, StatusMeta(ticket.status), None, now, stamp);
      r := Ok(());
    }

    /** `saveArticle`: rejects an empty title or body (not trimmed here). With
        an article id, the first article with that id gets the new title, body,
        parsed tags, status and time stamp, and nothing else changes (nothing at
        all when no article has the id); without one, exactly one article is
        appended, numbered after the existing ones. */
    method SaveArticle(articleId: string, title: string, body: string, tagsInput: string, status: ArticleStatus,
                       stamp: string) returns (r: Result<(), Failure>)
      modifies this`kbArticles
      ensures title == "" || body == "" ==> r == Err(MissingFields) && kbArticles == old(kbArticles)
      ensures title != "" && body != "" ==> r == Ok(())
      ensures title != "" && body != "" && articleId != "" ==>
              match FindArticle(old(kbArticles), articleId)
              case None => kbArticles == old(kbArticles)
              case Some(k) =>
                kbArticles == old(kbArticles)[k := old(kbArticles)[k].(title := title, body := body, tags := ParseTags(tagsInput),
                                                                      status := status, updatedAt := stamp)]
      ensures title != "" && body != "" && articleId == "" ==>
              kbArticles == old(kbArticles) + [Article(DecimalString(|old(kbArticles)| + 1), title, body, ParseTags(tagsInput), status, stamp)]
    {
      var tags := ParseTags(tagsInput);
      if title == "" || body == "" {
        return Err(MissingFields);
      }
      if articleId != "" {
        var found := FindArticle(kbArticles, articleId);
        if found.Some? {
          var k := found.value;
          kbArticles := kbArticles[k := kbArticles[k].(title := title, body := body, tags := tags, status := status, updatedAt := stamp)];
        }
      } else {
        kbArticles := kbArticles + [Article(DecimalString(|kbArticles| + 1), title, body, tags, status, stamp)];
      }
      r := Ok(());
    }

    /** `deleteArticle`: once confirmed, removes every article with the id and
        keeps the others in order. */
    method DeleteArticle(articleId: string, confirmed: bool) returns (r: Result<(), Failure>)
      modifies this`kbArticles
      ensures !confirmed ==> r == Err(NotConfirmed) && kbArticles == old(kbArticles)
      ensures confirmed ==> r == Ok(()) && kbArticles == RemoveArticle(old(kbArticles), articleId)
    {
      if !confirmed {
        return Err(NotConfirmed);
      }
      kbArticles := RemoveArticle(kbArticles, articleId);
      r := Ok(());
    }

    /** `handleLogin`: both fields are required; the first user with that
        e-mail and password becomes the current user. */
    method Login(email: string, password: string) returns (r: Result<Session, Failure>)
      modifies this`currentUser
      ensures email == "" || password == "" ==> r == Err(MissingFields)
      ensures email != "" && password != "" ==>
              match FindLogin(users, email, password)
              case None => r == Err(InvalidCredentials)
              case Some(u) => r == Ok(SessionOf(u))
      ensures r.Ok? ==> currentUser == Some(r.value)
      ensures r.Err? ==> currentUser == old(currentUser)
    {
      if email == "" || password == "" {
        return Err(MissingFields);
      }
      var user := FindLogin(users, email, password);
      if user.None? {
        return Err(InvalidCredentials);
      }
      currentUser := Some(SessionOf(user.value));
      r := Ok(currentUser.value);
    }

    /** `handleRegister`: all fields are required and a registered e-mail is
        refused; otherwise exactly one end user is appended, numbered after the
        existing ones, and signed in. */
    method Register(name: string, email: string, password: string) returns (r: Result<Session, Failure>)
      modifies this`users, this`currentUser
      ensures name == "" || email == "" || password == "" ==> r == Err(MissingFields)
      ensures name != "" && email != "" && password != "" && EmailTaken(old(users), email) ==> r == Err(UserExists)
      ensures r.Err? ==> users == old(users) && currentUser == old(currentUser)
      ensures r.Ok? <==> name != "" && email != "" && password != "" && !EmailTaken(old(users), email)
      ensures r.Ok? ==>
              var u := User(DecimalString(|old(users)| + 1), email, name, EndUser, password);
              users == old(users) + [u] && r.value == SessionOf(u) && currentUser == Some(SessionOf(u))
      ensures UniqueEmails(old(users)) ==> UniqueEmails(users)
    {
      if name == "" || email == "" || password == "" {
        return Err(MissingFields);
      }
      if EmailTaken(users, email) {
        return Err(UserExists);
      }
      var newUser := User(DecimalString(|users| + 1), email, name, EndUser, password);
      if UniqueEmails(users) {
        RegisterKeepsEmailsUnique(users, newUser);
      }
      users := users + [newUser];
      currentUser := Some(SessionOf(newUser));
      r := Ok(SessionOf(newUser));
    }

    /** `filterTickets`: reading the signed-in user's role fails without one;
        otherwise the listed tickets are the tickets satisfying every chosen
        filter, in their original order. */
    function ListTickets(status: Option<Status>, category: Option<Category>, search: string): (r: Result<seq<Ticket>, Failure>)
      reads this
      ensures currentUser.None? <==> r == Err(NotSignedIn)
      ensures r.Ok? ==> IsSubsequence(r.value, tickets)
      ensures r.Ok? ==> forall t :: t in r.value <==> t in tickets && Listed(t, currentUser.value, status, category, ToLower(search))
    {
      if currentUser.None? then Err(NotSignedIn)
      else
        FilterTicketsSpec(tickets, currentUser.value, status, category, search);
        Ok(FilterTickets(tickets, currentUser.value, status, category, search))
    }

    /** The AI resolution rate of the dashboard: 0 for an empty store, otherwise
        a percentage in [0, 100]. */
    function AiResolutionRate(): (r: int)
      reads this
      ensures tickets == [] ==> r == EmptyRate
      ensures tickets != [] ==> 0 <= r <= 100 && r == RoundedPercent(ResolvedCount(tickets), |tickets|)
    {
      ResolutionRate(tickets, EmptyRate)
    }
  }
}
