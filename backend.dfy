/** The second front-end of the helpdesk (`backend/app.js`). Its ticket form
    does not run the agentic triage: a new ticket is marked `triaged` at once
    and answered with one canned AI reply picked by a keyword test
    (`generateQuickAIResponse`). Replies, article edits and settings change
    the store without writing audit entries. */
module Backend {
  import opened Wrappers
  import opened Seqs
  import opened Text
  import opened Records
  import opened Store
  import opened Classifier

  // ---------------------------------------------------------------------------
  // The canned reply (`generateQuickAIResponse`)
  // ---------------------------------------------------------------------------

  const QuickBillingWords: seq<string> := ["refund", "charge", "billing"]
  const QuickTechWords: seq<string> := ["error", "login", "technical"]
  const QuickShippingWords: seq<string> := ["shipping", "delivery", "package"]

  /** The words whose presence selects each canned reply; `other` is the fallback. */
  function QuickWords(c: Category): seq<string>
  {
    match c
    case Billing => QuickBillingWords
    case Tech => QuickTechWords
    case Shipping => QuickShippingWords
    case Other => []
  }

  /** `text.includes(w1) || text.includes(w2) || …` over `words`. */
  function AnyOccurs(text: string, words: seq<string>): bool
  {
    words != [] && (Contains(text, words[0]) || AnyOccurs(text, words[1..]))
  }

  /** The chain of `||` holds exactly when one of the words occurs. */
  lemma {:induction false} AnyOccursIff(text: string, words: seq<string>)
    ensures AnyOccurs(text, words) <==> exists w :: w in words && Contains(text, w)
  {
    if words != [] {
      AnyOccursIff(text, words[1..]);
      assert words[0] in words;
      assert forall w :: w in words[1..] ==> w in words;
      assert words == [words[0]] + words[1..];
    }
  }

  /** The branch `generateQuickAIResponse` takes: billing, tech and shipping
      words are tested in that order, and `other` is the fallback. */
  function QuickTopic(text: string): Category
  {
    if AnyOccurs(text, QuickBillingWords) then Billing
    else if AnyOccurs(text, QuickTechWords) then Tech
    else if AnyOccurs(text, QuickShippingWords) then Shipping
    else Other
  }

  /** The canned reply of each branch. */
  function QuickText(c: Category): string
  {
    match c
    case Billing =>
      "Thank you for contacting us about your billing inquiry. I understand your concern about the charges. Our billing team will review your account and process any necessary refunds within 3-5 business days. Please refer to our payment policy for more details."
    case Tech =>
      "I understand you're experiencing technical difficulties. Please try these troubleshooting steps: 1. Clear your browser cache 2. Try using incognito mode 3. Check your internet connection. If the issue persists, our technical team will investigate further."
    case Shipping =>
      "I can help you with your shipping inquiry. Please check your tracking information in your order confirmation email. If your package is delayed, we'll work with our shipping partners to provide updates and ensure prompt delivery."
    case Other =>
      "Thank you for reaching out to us. Our support team has received your request and will review it carefully. We'll get back to you within 24 hours with a detailed response to address your concern."
  }

  /** `generateQuickAIResponse(ticket)`: reads the lower-cased title and description. */
  function QuickReply(ticket: Ticket): string
  {
    QuickText(QuickTopic(TicketText(ticket)))
  }

  /** The first list with a word in the text decides: the chosen topic has one
      of its words in the text and no list tested before it has any (for
      `other`, no list has any). */
  lemma QuickTopicFirstMatch(text: string)
    ensures var c := QuickTopic(text);
            (c != Other ==> exists w :: w in QuickWords(c) && Contains(text, w)) &&
            (forall d, w :: d != Other && Rank(d) < Rank(c) && w in QuickWords(d) ==> !Contains(text, w))
  {
    AnyOccursIff(text, QuickBillingWords);
    AnyOccursIff(text, QuickTechWords);
    AnyOccursIff(text, QuickShippingWords);
  }

  /** Every trigger word of a canned reply holds a trigger word of the triage
      classifier for the same category ("billing" holds "bill"). */
  lemma QuickWordHasKeyword(c: Category, w: string)
    requires w in QuickWords(c)
    ensures exists k :: k in Keywords(c) && Contains(w, k)
  {
    if w == "billing" {
      ContainsMiddle("", "bill", "ing");
      assert "" + "bill" + "ing" == w;
      assert "bill" in Keywords(c);
    } else {
      ContainsMiddle("", w, "");
      assert "" + w + "" == w;
      assert w in Keywords(c);
    }
  }

  /** The canned reply and the triage classifier agree where they overlap: a
      canned reply other than the general one is only chosen when the
      classifier counts a keyword of that category, so a ticket the classifier
      files under `other` always gets the general reply. */
  lemma QuickAgreesWithClassifier(text: string)
    ensures QuickTopic(text) != Other ==> KeywordScore(text, QuickTopic(text)) > 0
    ensures Classify(text).predictedCategory == Other ==> QuickTopic(text) == Other
  {
    var c := QuickTopic(text);
    if c != Other {
      QuickTopicFirstMatch(text);
      var w :| w in QuickWords(c) && Contains(text, w);
      QuickWordHasKeyword(c, w);
      var k :| k in Keywords(c) && Contains(w, k);
      ContainsTransitive(text, w, k);
      CountOccurringZero(text, Keywords(c));
      ClassifyOtherIff(text);
      assert c in Order;
    }
  }

  // ---------------------------------------------------------------------------
  // Settings (`saveSettings`)
  // ---------------------------------------------------------------------------

  const DefaultThreshold: real := 0.78
  const DefaultSlaHours: int := 24

  /** The configuration `saveSettings` stores. Each argument is what the form
      yields: the checkbox state (none when the checkbox is missing), and the
      parsed threshold and SLA (none when `parseFloat`/`parseInt` gives NaN).
      A missing checkbox counts as checked, and a missing or zero number falls
      back to its default. */
  function SettingsFrom(autoClose: Option<bool>, threshold: Option<real>, slaHours: Option<int>): (c: Config)
    ensures autoClose.None? ==> c.autoCloseEnabled
    ensures autoClose.Some? ==> c.autoCloseEnabled == autoClose.value
    ensures c.confidenceThreshold != 0.0 && c.slaHours != 0
    ensures threshold.Some? && threshold.value != 0.0 ==> c.confidenceThreshold == threshold.value
    ensures threshold.None? || threshold == Some(0.0) ==> c.confidenceThreshold == DefaultThreshold
    ensures slaHours.Some? && slaHours.value != 0 ==> c.slaHours == slaHours.value
    ensures slaHours.None? || slaHours == Some(0) ==> c.slaHours == DefaultSlaHours
  {
    Config(
      if autoClose.Some? then autoClose.value else true,
      if threshold.Some? && threshold.value != 0.0 then threshold.value else DefaultThreshold,
      if slaHours.Some? && slaHours.value != 0 then slaHours.value else DefaultSlaHours)
  }

  /** Saving the form as `loadSettings` fills it in gives back the stored
      configuration, as long as neither number is zero. */
  lemma SettingsRoundTrip(c: Config)
    requires c.confidenceThreshold != 0.0 && c.slaHours != 0
    ensures SettingsFrom(Some(c.autoCloseEnabled), Some(c.confidenceThreshold), Some(c.slaHours)) == c
  {
  }

  /** Saving is idempotent: saving the saved configuration again changes nothing. */
  lemma SettingsIdempotent(autoClose: Option<bool>, threshold: Option<real>, slaHours: Option<int>)
    ensures var c := SettingsFrom(autoClose, threshold, slaHours);
            SettingsFrom(Some(c.autoCloseEnabled), Some(c.confidenceThreshold), Some(c.slaHours)) == c
  {
    SettingsRoundTrip(SettingsFrom(autoClose, threshold, slaHours));
  }

  // ---------------------------------------------------------------------------
  // The store
  // ---------------------------------------------------------------------------

  /** The dashboard's AI resolution rate before any ticket exists. */
  const EmptyRate: int := 85

  /** The ticket `createTicket` appends: `triaged` at once, with the canned
      reply as its only reply. */
  function QuickTicket(id: string, title: string, description: string, category: Category,
                       createdBy: string, now: nat, stamp: string): (t: Ticket)
    ensures t.id == id && t.status == Triaged && t.assignee.None? && t.attachments == []
    ensures |t.replies| == 1 && t.replies[0].isAI && t.replies[0].sender == "system"
    ensures t.replies[0].message == QuickText(QuickTopic(ToLower(title + " " + description)))
  {
    var t := Ticket(id, title, description, category, Triaged, createdBy, None, stamp, [], []);
    t.(replies := [Reply(DecimalString(now), "system", QuickReply(t), stamp, true)])
  }

  /** `categoryElement?.value || 'other'`: the chosen category, or `other`
      when the select is missing or empty. */
  function TicketCategory(category: Option<Category>): Category
  {
    if category.Some? then category.value else Other
  }

  class Helpdesk {
    var users: seq<User>
    var tickets: seq<Ticket>
    var kbArticles: seq<Article>
    var config: Config
    /** `currentUser`: the signed-in user, or none. */
    var currentUser: Option<Session>

    /** A store loaded with the given data and nobody signed in. */
    constructor(users: seq<User>, tickets: seq<Ticket>, kbArticles: seq<Article>, config: Config)
      ensures this.users == users && this.tickets == tickets && this.kbArticles == kbArticles
      ensures this.config == config && currentUser == None
    {
      this.users := users;
      this.tickets := tickets;
      this.kbArticles := kbArticles;
      this.config := config;
      currentUser := None;
    }

    /** `createTicket`: trims title and description and rejects either when
        empty; otherwise appends exactly one ticket, numbered after the
        existing ones, already answered by the canned reply. The category is
        none when the select is missing or empty, and then falls back to
        `other`. Numbered tickets stay numbered, and the new id finds the new
        ticket. */
    method CreateTicket(title: string, description: string, category: Option<Category>, now: nat, stamp: string)
      returns (r: Result<string, Failure>)
      modifies this`tickets
      ensures Trim(title) == "" || Trim(description) == "" ==> r == Err(MissingFields)
      ensures Trim(title) != "" && Trim(description) != "" && currentUser.None? ==> r == Err(NotSignedIn)
      ensures r.Err? ==> tickets == old(tickets)
      ensures r.Ok? <==> Trim(title) != "" && Trim(description) != "" && currentUser.Some?
      ensures r.Ok? ==>
              r.value == DecimalString(|old(tickets)| + 1) &&
              tickets == old(tickets) + [QuickTicket(r.value, Trim(title), Trim(description),
                                                     TicketCategory(category),
                                                     currentUser.value.id, now, stamp)]
      ensures r.Ok? && TicketsNumbered(old(tickets)) ==>
              TicketsNumbered(tickets) && FindTicket(tickets, r.value) == Some(|old(tickets)|)
    {
      var t, d := Trim(title), Trim(description);
      var c := TicketCategory(category);
      if t == "" || d == "" {
        return Err(MissingFields);
      }
      if currentUser.None? {
        return Err(NotSignedIn);
      }
      var ticketId := AddQuickTicket(t, d, c, currentUser.value.id, now, stamp);
      r := Ok(ticketId);
    }

    /** The part of `createTicket` after its checks, for the signed-in user
        `userId`: appends the quick-answered ticket numbered after the others. */
    method AddQuickTicket(title: string, description: string, category: Category, userId: string, now: nat, stamp: string)
      returns (ticketId: string)
      modifies this`tickets
      ensures ticketId == DecimalString(|old(tickets)| + 1)
      ensures tickets == old(tickets) + [QuickTicket(ticketId, title, description, category, userId, now, stamp)]
      ensures TicketsNumbered(old(tickets)) ==>
              TicketsNumbered(tickets) && FindTicket(tickets, ticketId) == Some(|old(tickets)|)
    {
      ticketId := DecimalString(|tickets| + 1);
      var newTicket := QuickTicket(ticketId, title, description, category, userId, now, stamp);
      if TicketsNumbered(tickets) {
        NextTicketIdFresh(tickets, newTicket);
      }
      tickets := tickets + [newTicket];
    }

    /** `sendReply`: rejects a message that is empty once trimmed; otherwise the
        first ticket with the id gains exactly one human reply from the
        signed-in user, and its status changes only when a new status was
        chosen. */
    method SendReply(ticketId: string, message: string, newStatus: Option<Status>, now: nat, stamp: string)
      returns (r: Result<(), Failure>)
      modifies this`tickets
      ensures Trim(message) == "" ==> r == Err(MissingFields)
      ensures Trim(message) != "" && currentUser.None? ==> r == Err(NotSignedIn)
      ensures Trim(message) != "" && currentUser.Some? && FindTicket(old(tickets), ticketId).None? ==> r == Err(TicketNotFound)
      ensures r.Err? ==> tickets == old(tickets)
      ensures r.Ok? <==> Trim(message) != "" && currentUser.Some? && FindTicket(old(tickets), ticketId).Some?
      ensures r.Ok? ==>
              var k := FindTicket(old(tickets), ticketId).value;
              var before := old(tickets)[k];
              var reply := Reply(DecimalString(now), currentUser.value.id, Trim(message), stamp, false);
              tickets == old(tickets)[k := before.(replies := before.replies + [reply],
                                                   status := if newStatus.Some? then newStatus.value else before.status)]
    {
      var text := Trim(message);
      if text == "" {
        return Err(MissingFields);
      }
      var found := FindTicket(tickets, ticketId);
      if currentUser.None? {
        return Err(NotSignedIn);
      }
      var reply := Reply(DecimalString(now), currentUser.value.id, text, stamp, false);
      if found.None? {
        return Err(TicketNotFound);
      }
      var k := found.value;
      var ticket := tickets[k];
      ticket := ticket.(replies := ticket.replies + [reply]);
      if newStatus.Some? {
        ticket := ticket.(status := newStatus.value);
      }
      tickets := tickets[k := ticket];
      r := Ok(());
    }

    /** `saveArticle`: trims title and body and rejects either when empty.
        With an article id, the first article with that id gets the new title,
        body, parsed tags, status and time stamp, and nothing else changes
        (nothing at all when no article has the id); without one, exactly one
        article is appended, numbered after the existing ones. */
    method SaveArticle(articleId: string, title: string, body: string, tagsInput: string, status: ArticleStatus,
                       stamp: string) returns (r: Result<(), Failure>)
      modifies this`kbArticles
      ensures Trim(title) == "" || Trim(body) == "" ==> r == Err(MissingFields) && kbArticles == old(kbArticles)
      ensures Trim(title) != "" && Trim(body) != "" ==> r == Ok(())
      ensures Trim(title) != "" && Trim(body) != "" && articleId != "" ==>
              match FindArticle(old(kbArticles), articleId)
              case None => kbArticles == old(kbArticles)
              case Some(k) =>
                kbArticles == old(kbArticles)[k := old(kbArticles)[k].(title := Trim(title), body := Trim(body),
                                                                      tags := ParseTags(tagsInput),
                                                                      status := status, updatedAt := stamp)]
      ensures Trim(title) != "" && Trim(body) != "" && articleId == "" ==>
              kbArticles == old(kbArticles) + [Article(DecimalString(|old(kbArticles)| + 1), Trim(title), Trim(body),
                                                       ParseTags(tagsInput), status, stamp)]
    {
      var t, b := Trim(title), Trim(body);
      var tags := ParseTags(tagsInput);
      if t == "" || b == "" {
        return Err(MissingFields);
      }
      if articleId != "" {
        var found := FindArticle(kbArticles, articleId);
        if found.Some? {
          var k := found.value;
          kbArticles := kbArticles[k := kbArticles[k].(title := t, body := b, tags := tags, status := status, updatedAt := stamp)];
        }
      } else {
        kbArticles := kbArticles + [Article(DecimalString(|kbArticles| + 1), t, b, tags, status, stamp)];
      }
      r := Ok(());
    }

    /** `deleteArticle`: once confirmed, removes every article with the id and
        keeps the others in order. */
    method DeleteArticle(articleId: string, confirmed: bool) returns (r: Result<(), Failure>)
      modifies this`kbArticles
      ensures !confirmed ==> r == Err(NotConfirmed) && kbArticles == old(kbArticles)
      ensures confirmed ==> r == Ok(()) && kbArticles == RemoveArticle(old(kbArticles), articleId)
    {
      if !confirmed {
        return Err(NotConfirmed);
      }
      kbArticles := RemoveArticle(kbArticles, articleId);
      r := Ok(());
    }

    /** `handleLogin`: both fields are required; the first user with that
        e-mail and password becomes the current user. */
    method Login(email: string, password: string) returns (r: Result<Session, Failure>)
      modifies this`currentUser
      ensures email == "" || password == "" ==> r == Err(MissingFields)
      ensures email != "" && password != "" ==>
              match FindLogin(users, email, password)
              case None => r == Err(InvalidCredentials)
              case Some(u) => r == Ok(SessionOf(u))
      ensures r.Ok? ==> currentUser == Some(r.value)
      ensures r.Err? ==> currentUser == old(currentUser)
    {
      if email == "" || password == "" {
        return Err(MissingFields);
      }
      r := DemoLogin(email, password);
    }

    /** `demoLogin`: the one-click login of the demo accounts, without the
        empty-field check; the first user with that e-mail and password
        becomes the current user. */
    method DemoLogin(email: string, password: string) returns (r: Result<Session, Failure>)
      modifies this`currentUser
      ensures match FindLogin(users, email, password)
              case None => r == Err(InvalidCredentials)
              case Some(u) => r == Ok(SessionOf(u))
      ensures r.Ok? ==> currentUser == Some(r.value)
      ensures r.Err? ==> currentUser == old(currentUser)
    {
      var user := FindLogin(users, email, password);
      if user.None? {
        return Err(InvalidCredentials);
      }
      currentUser := Some(SessionOf(user.value));
      r := Ok(currentUser.value);
    }

    /** `handleRegister`: all fields are required and a registered e-mail is
        refused; otherwise exactly one end user is appended, numbered after the
        existing ones, and signed in. */
    method Register(name: string, email: string, password: string) returns (r: Result<Session, Failure>)
      modifies this`users, this`currentUser
      ensures name == "" || email == "" || password == "" ==> r == Err(MissingFields)
      ensures name != "" && email != "" && password != "" && EmailTaken(old(users), email) ==> r == Err(UserExists)
      ensures r.Err? ==> users == old(users) && currentUser == old(currentUser)
      ensures r.Ok? <==> name != "" && email != "" && password != "" && !EmailTaken(old(users), email)
      ensures r.Ok? ==>
              var u := User(DecimalString(|old(users)| + 1), email, name, EndUser, password);
              users == old(users) + [u] && r.value == SessionOf(u) && currentUser == Some(SessionOf(u))
      ensures UniqueEmails(old(users)) ==> UniqueEmails(users)
    {
      if name == "" || email == "" || password == "" {
        return Err(MissingFields);
      }
      if EmailTaken(users, email) {
        return Err(UserExists);
      }
      var newUser := User(DecimalString(|users| + 1), email, name, EndUser, password);
      if UniqueEmails(users) {
        RegisterKeepsEmailsUnique(users, newUser);
      }
      users := users + [newUser];
      currentUser := Some(SessionOf(newUser));
      r := Ok(SessionOf(newUser));
    }

    /** `saveSettings`: replaces the whole configuration with the form's values
        and their fallbacks. */
    method SaveSettings(autoClose: Option<bool>, threshold: Option<real>, slaHours: Option<int>)
      modifies this`config
      ensures config == SettingsFrom(autoClose, threshold, slaHours)
    {
      config := SettingsFrom(autoClose, threshold, slaHours);
    }

    /** `filterTickets`: reading the signed-in user's role fails without one;
        otherwise the listed tickets are the tickets satisfying every chosen
        filter, in their original order. */
    function ListTickets(status: Option<Status>, category: Option<Category>, search: string): (r: Result<seq<Ticket>, Failure>)
      reads this
      ensures currentUser.None? <==> r == Err(NotSignedIn)
      ensures r.Ok? ==> IsSubsequence(r.value, tickets)
      ensures r.Ok? ==> forall t :: t in r.value <==> t in tickets && Listed(t, currentUser.value, status, category, ToLower(search))
    {
      if currentUser.None? then Err(NotSignedIn)
      else
        FilterTicketsSpec(tickets, currentUser.value, status, category, search);
        Ok(FilterTickets(tickets, currentUser.value, status, category, search))
    }

    /** The AI resolution rate of the dashboard: 85 for an empty store,
        otherwise a percentage in [0, 100]. */
    function AiResolutionRate(): (r: int)
      reads this
      ensures tickets == [] ==> r == EmptyRate
      ensures tickets != [] ==> 0 <= r <= 100 && r == RoundedPercent(ResolvedCount(tickets), |tickets|)
    {
      ResolutionRate(tickets, EmptyRate)
    }
  }
}
