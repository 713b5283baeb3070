/** The store operations both front-ends share: lookups by id, e-mail and role,
    the ticket list filters, the dashboard counters, the comma-separated tag
    parser of the article editor, and article deletion. */
module Store {
  import opened Wrappers
  import opened Seqs
  import opened Text
  import opened Records

  // ---------------------------------------------------------------------------
  // Lookups (`find`)
  // ---------------------------------------------------------------------------

  /** `tickets.find(t => t.id === id)`, as the position of the ticket found. */
  function FindTicket(tickets: seq<Ticket>, id: string): (r: Option<nat>)
    ensures r.Some? ==> r.value < |tickets| && tickets[r.value].id == id &&
                        forall j :: 0 <= j < r.value ==> tickets[j].id != id
    ensures r.None? <==> forall t :: t in tickets ==> t.id != id
  {
    FirstIndex((t: Ticket) => t.id == id, tickets)
  }

  /** `kbArticles.find(a => a.id === id)`, as the position of the article found. */
  function FindArticle(articles: seq<Article>, id: string): (r: Option<nat>)
    ensures r.Some? ==> r.value < |articles| && articles[r.value].id == id &&
                        forall j :: 0 <= j < r.value ==> articles[j].id != id
    ensures r.None? <==> forall a :: a in articles ==> a.id != id
  {
    FirstIndex((a: Article) => a.id == id, articles)
  }

  /** The login lookup `users.find(u => u.email === email && u.password === password)`:
      it succeeds exactly when some user has both, and then yields the first such user. */
  function FindLogin(users: seq<User>, email: string, password: string): (r: Option<User>)
    ensures r.Some? <==> exists u :: u in users && u.email == email && u.password == password
    ensures r.Some? ==> exists i :: 0 <= i < |users| && users[i] == r.value &&
                          r.value.email == email && r.value.password == password &&
                          forall j :: 0 <= j < i ==> !(users[j].email == email && users[j].password == password)
  {
    match FirstIndex((u: User) => u.email == email && u.password == password, users)
    case None => None
    case Some(i) => Some(users[i])
  }

  /** The registration check `users.find(u => u.email === email)` used as a boolean. */
  function EmailTaken(users: seq<User>, email: string): (r: bool)
    ensures r <==> exists u :: u in users && u.email == email
  {
    FirstIndex((u: User) => u.email == email, users).Some?
  }

  /** `users.find(u => u.role === 'agent')`: the first agent, if there is one. */
  function FirstAgent(users: seq<User>): (r: Option<User>)
    ensures r.None? <==> forall u :: u in users ==> u.role != Agent
    ensures r.Some? ==> r.value.role == Agent
    ensures r.Some? ==> exists i :: 0 <= i < |users| && users[i] == r.value &&
                          forall j :: 0 <= j < i ==> users[j].role != Agent
  {
    match FirstIndex((u: User) => u.role == Agent, users)
    case None => None
    case Some(i) => Some(users[i])
  }

  /** No two users share an e-mail address. */
  ghost predicate UniqueEmails(users: seq<User>)
  {
    forall i, j :: 0 <= i < j < |users| ==> users[i].email != users[j].email
  }

  /** Registration appends only users whose e-mail is not taken, so it keeps e-mails unique. */
  lemma RegisterKeepsEmailsUnique(users: seq<User>, u: User)
    requires UniqueEmails(users)
    requires !EmailTaken(users, u.email)
    ensures UniqueEmails(users + [u])
  {
    var us := users + [u];
    forall i, j | 0 <= i < j < |us| ensures us[i].email != us[j].email {
      if j == |users| {
        assert us[i] in users;
      }
    }
  }

  // ---------------------------------------------------------------------------
  // Sequential ids
  // ---------------------------------------------------------------------------

  /** Tickets numbered "1", "2", … in order, as `String(tickets.length + 1)`
      numbers them while no ticket is ever removed. */
  ghost predicate TicketsNumbered(tickets: seq<Ticket>)
  {
    forall i :: 0 <= i < |tickets| ==> tickets[i].id == DecimalString(i + 1)
  }

  /** With numbered tickets no ticket carries the next number. */
  lemma NextTicketIdUnused(tickets: seq<Ticket>)
    requires TicketsNumbered(tickets)
    ensures forall u :: u in tickets ==> u.id != DecimalString(|tickets| + 1)
  {
    forall u | u in tickets ensures u.id != DecimalString(|tickets| + 1) {
      var i :| 0 <= i < |tickets| && tickets[i] == u;
      if u.id == DecimalString(|tickets| + 1) {
        DecimalStringInjective(i + 1, |tickets| + 1);
      }
    }
  }

  /** With numbered tickets the next id is new, so after the append the
      tickets are still numbered and looking the id up finds the ticket just
      created. */
  lemma NextTicketIdFresh(tickets: seq<Ticket>, t: Ticket)
    requires TicketsNumbered(tickets)
    requires t.id == DecimalString(|tickets| + 1)
    ensures TicketsNumbered(tickets + [t])
    ensures FindTicket(tickets + [t], t.id) == Some(|tickets|)
  {
    NextTicketIdUnused(tickets);
    var ts := tickets + [t];
    assert ts[|tickets|] == t;
    forall j | 0 <= j < |tickets| ensures ts[j].id != t.id && ts[j].id == DecimalString(j + 1) {
      assert ts[j] == tickets[j];
      assert tickets[j] in tickets;
    }
  }

  // ---------------------------------------------------------------------------
  // Ticket list filters (`filterTickets`)
  // ---------------------------------------------------------------------------

  /** What a ticket must satisfy to be listed: a `user` sees only their own
      tickets, and each non-empty filter must match; `needle` is the lower-cased
      search text. */
  predicate Listed(t: Ticket, viewer: Session, status: Option<Status>, category: Option<Category>, needle: string)
  {
    (viewer.role == EndUser ==> t.createdBy == viewer.id) &&
    (status.Some? ==> t.status == status.value) &&
    (category.Some? ==> t.category == category.value) &&
    (needle != [] ==> Contains(ToLower(t.title), needle) || Contains(ToLower(t.description), needle))
  }

  /** The chain of filters `filterTickets` applies, one per non-empty criterion,
      in the source's order. */
  function FilterTickets(tickets: seq<Ticket>, viewer: Session, status: Option<Status>,
                         category: Option<Category>, search: string): seq<Ticket>
  {
    var needle := ToLower(search);
    var mine := if viewer.role == EndUser then Filter((t: Ticket) => t.createdBy == viewer.id, tickets) else tickets;
    var byStatus := if status.Some? then Filter((t: Ticket) => t.status == status.value, mine) else mine;
    var byCategory := if category.Some? then Filter((t: Ticket) => t.category == category.value, byStatus) else byStatus;
    if needle != [] then
      Filter((t: Ticket) => Contains(ToLower(t.title), needle) || Contains(ToLower(t.description), needle), byCategory)
    else byCategory
  }

  /** One optional filter stage: applying `q` when `on` holds equals filtering by
      `p` and then `q`-if-`on` in one pass. */
  lemma FilterStage<T>(on: bool, p: T -> bool, q: T -> bool, pq: T -> bool, s: seq<T>)
    requires forall x :: pq(x) == (p(x) && (on ==> q(x)))
    ensures (if on then Filter(q, Filter(p, s)) else Filter(p, s)) == Filter(pq, s)
  {
    if on {
      FilterFilter(p, q, pq, s);
    } else {
      FilterExt(p, pq, s);
    }
  }

  /** The chain of filters is one filter by `Listed`. */
  lemma {:induction false} FilterTicketsOnePass(tickets: seq<Ticket>, viewer: Session, status: Option<Status>,
                                                category: Option<Category>, search: string)
    ensures FilterTickets(tickets, viewer, status, category, search) ==
            Filter((t: Ticket) => Listed(t, viewer, status, category, ToLower(search)), tickets)
  {
    var needle := ToLower(search);
    var own := (t: Ticket) => viewer.role == EndUser ==> t.createdBy == viewer.id;
    var p1 := (t: Ticket) => own(t) && (status.Some? ==> t.status == status.value);
    var p2 := (t: Ticket) => p1(t) && (category.Some? ==> t.category == category.value);
    var p3 := (t: Ticket) => Listed(t, viewer, status, category, needle);
    var all := (t: Ticket) => true;
    FilterTrue(all, tickets);
    FilterStage(viewer.role == EndUser, all, (t: Ticket) => t.createdBy == viewer.id, own, tickets);
    FilterStage(status.Some?, own, (t: Ticket) => status.Some? && t.status == status.value, p1, tickets);
    FilterStage(category.Some?, p1, (t: Ticket) => category.Some? && t.category == category.value, p2, tickets);
    FilterStage(needle != [], p2,
      (t: Ticket) => Contains(ToLower(t.title), needle) || Contains(ToLower(t.description), needle), p3, tickets);
    var mine := if viewer.role == EndUser then Filter((t: Ticket) => t.createdBy == viewer.id, tickets) else tickets;
    assert mine == Filter(own, tickets);
    var byStatus := if status.Some? then Filter((t: Ticket) => t.status == status.value, mine) else mine;
    if status.Some? {
      FilterExt((t: Ticket) => t.status == status.value, (t: Ticket) => status.Some? && t.status == status.value, mine);
    }
    assert byStatus == Filter(p1, tickets);
    var byCategory := if category.Some? then Filter((t: Ticket) => t.category == category.value, byStatus) else byStatus;
    if category.Some? {
      FilterExt((t: Ticket) => t.category == category.value, (t: Ticket) => category.Some? && t.category == category.value, byStatus);
    }
    assert byCategory == Filter(p2, tickets);
  }

  /** The result is a subsequence of the tickets, holding exactly the listed
      ones in their original order. */
  lemma FilterTicketsSpec(tickets: seq<Ticket>, viewer: Session, status: Option<Status>,
                          category: Option<Category>, search: string)
    ensures FilterTickets(tickets, viewer, status, category, search) ==
            Filter((t: Ticket) => Listed(t, viewer, status, category, ToLower(search)), tickets)
    ensures IsSubsequence(FilterTickets(tickets, viewer, status, category, search), tickets)
    ensures forall t :: t in FilterTickets(tickets, viewer, status, category, search) <==>
                        t in tickets && Listed(t, viewer, status, category, ToLower(search))
  {
    FilterTicketsOnePass(tickets, viewer, status, category, search);
    FilterSpec((t: Ticket) => Listed(t, viewer, status, category, ToLower(search)), tickets);
  }

  // ---------------------------------------------------------------------------
  // Dashboard counters (`updateDashboardStats`)
  // ---------------------------------------------------------------------------

  /** `['open', 'triaged', 'waiting_human'].includes(status)`. */
  predicate IsPending(s: Status)
  {
    s == Open || s == Triaged || s == WaitingHuman
  }

  /** `['resolved', 'closed'].includes(status)`. */
  predicate IsDone(s: Status)
  {
    s == Resolved || s == Closed
  }

  function PendingCount(tickets: seq<Ticket>): nat
  {
    |Filter((t: Ticket) => IsPending(t.status), tickets)|
  }

  function ResolvedCount(tickets: seq<Ticket>): nat
  {
    |Filter((t: Ticket) => IsDone(t.status), tickets)|
  }

  /** Every ticket is counted exactly once, as pending or as resolved. */
  lemma {:induction false} DashboardCounts(tickets: seq<Ticket>)
    ensures PendingCount(tickets) + ResolvedCount(tickets) == |tickets|
    ensures PendingCount(tickets) <= |tickets| && ResolvedCount(tickets) <= |tickets|
  {
    if tickets != [] {
      DashboardCounts(tickets[1..]);
    }
  }

  /** `Math.round(part / whole * 100)` computed exactly: the nearest whole
      percentage, halves rounded up. */
  function RoundedPercent(part: nat, whole: nat): (r: int)
    requires 0 < whole
    ensures part <= whole ==> 0 <= r <= 100
    ensures 2 * whole * r <= 200 * part + whole < 2 * whole * (r + 1)
  {
    var r := (200 * part + whole) / (2 * whole);
    DivBounds(200 * part + whole, 2 * whole);
    PercentAtMostHundred(part, whole, r);
    r
  }

  /** A rounded share of at most the whole is at most 100. */
  lemma PercentAtMostHundred(part: nat, whole: nat, r: int)
    requires 0 < whole
    requires 2 * whole * r <= 200 * part + whole
    ensures part <= whole ==> r <= 100
  {
    if part <= whole {
      assert whole * (2 * r - 201) <= 0;
    }
  }

  /** Euclidean division of naturals brackets the dividend. */
  lemma DivBounds(a: nat, b: nat)
    requires 0 < b
    ensures 0 <= a / b
    ensures b * (a / b) <= a < b * (a / b + 1)
  {
  }

  /** The AI resolution rate: resolved tickets as a rounded percentage of all
      tickets, or `emptyRate` when there are none. */
  function ResolutionRate(tickets: seq<Ticket>, emptyRate: int): (r: int)
    ensures tickets == [] ==> r == emptyRate
    ensures tickets != [] ==> 0 <= r <= 100
  {
    DashboardCounts(tickets);
    if |tickets| > 0 then RoundedPercent(ResolvedCount(tickets), |tickets|) else emptyRate
  }

  // ---------------------------------------------------------------------------
  // Articles: tag parsing and deletion
  // ---------------------------------------------------------------------------

  /** `value.split(',').map(t => t.trim()).filter(t => t)`. */
  function ParseTags(input: string): seq<string>
  {
    Filter((t: string) => t != [], Map(Trim, Split(input, ',')))
  }

  /** A tag as the parser produces it: non-empty, comma-free, no white space at either end. */
  predicate IsTag(t: string)
  {
    t != [] && ',' !in t && !IsSpace(t[0]) && !IsSpace(t[|t| - 1])
  }

  /** A comma-free piece whose trimmed form is not empty trims to a tag. */
  lemma TrimmedPieceIsTag(p: string)
    requires ',' !in p && Trim(p) != []
    ensures IsTag(Trim(p))
  {
    TrimSpec(p);
    var a, b :| 0 <= a <= b <= |p| && Trim(p) == p[a..b] && IsBlank(p[..a]) && IsBlank(p[b..]);
    assert forall c :: c in p[a..b] ==> c in p;
  }

  /** Every parsed tag is well formed. */
  lemma ParseTagsWellFormed(input: string)
    ensures forall t :: t in ParseTags(input) ==> IsTag(t)
  {
    var pieces := Split(input, ',');
    var trimmed := Map(Trim, pieces);
    FilterSpec((t: string) => t != [], trimmed);
    forall t | t in ParseTags(input) ensures IsTag(t) {
      var i :| 0 <= i < |trimmed| && trimmed[i] == t;
      assert pieces[i] in pieces;
      TrimmedPieceIsTag(pieces[i]);
    }
  }

  /** `" " + t` for every tag. */
  function Spaced(tags: seq<string>): (r: seq<string>)
    ensures |r| == |tags|
    ensures forall i :: 0 <= i < |tags| ==> r[i] == [' '] + tags[i]
  {
    if tags == [] then [] else [[' '] + tags[0]] + Spaced(tags[1..])
  }

  /** The separator `", "` is a comma followed by a space. */
  lemma CommaSpace(a: string, b: string)
    ensures a + ", " + b == a + [','] + ([' '] + b)
  {
    assert ", " == [','] + [' '];
  }

  /** Prefixing every tag with a space turns `join(', ')` into `join(',')`. */
  lemma {:induction false} JoinSpaced(tags: seq<string>)
    requires tags != []
    ensures [' '] + Join(tags, ", ") == Join(Spaced(tags), [','])
  {
    if |tags| > 1 {
      JoinSpaced(tags[1..]);
      var sp := Spaced(tags);
      assert sp[1..] == Spaced(tags[1..]);
      var rest := Join(tags[1..], ", ");
      CommaSpace(tags[0], rest);
      assert Join(tags, ", ") == tags[0] + ", " + rest;
      assert Join(sp, [',']) == sp[0] + [','] + Join(sp[1..], [',']);
    }
  }

  /** The tags as they appear between the commas of `tags.join(', ')`: the first
      one as it is, every later one after a space. */
  function SpaceAfterFirst(tags: seq<string>): (r: seq<string>)
    ensures |r| == |tags|
    ensures forall i :: 0 < i < |tags| ==> r[i] == [' '] + tags[i]
    ensures tags != [] ==> r[0] == tags[0]
  {
    if tags == [] then [] else [tags[0]] + Spaced(tags[1..])
  }

  lemma {:induction false} JoinCommaSpace(tags: seq<string>)
    ensures Join(tags, ", ") == Join(SpaceAfterFirst(tags), [','])
  {
    if |tags| > 1 {
      var s := SpaceAfterFirst(tags);
      var rest := Join(tags[1..], ", ");
      JoinSpaced(tags[1..]);
      assert s[1..] == Spaced(tags[1..]);
      CommaSpace(tags[0], rest);
      assert Join(tags, ", ") == tags[0] + ", " + rest;
      assert Join(s, [',']) == s[0] + [','] + Join(s[1..], [',']);
    }
  }

  /** The pieces between the commas of a join of tags hold no comma. */
  lemma SpaceAfterFirstNoComma(tags: seq<string>)
    requires forall t :: t in tags ==> IsTag(t)
    ensures forall p :: p in SpaceAfterFirst(tags) ==> ',' !in p
  {
    var s := SpaceAfterFirst(tags);
    forall p | p in s ensures ',' !in p {
      var i :| 0 <= i < |s| && s[i] == p;
      assert tags[i] in tags;
    }
  }

  /** Trimming the pieces between the commas gives back the tags. */
  lemma TrimSpaceAfterFirst(tags: seq<string>)
    requires forall t :: t in tags ==> IsTag(t)
    ensures Map(Trim, SpaceAfterFirst(tags)) == tags
  {
    var s := SpaceAfterFirst(tags);
    var trimmed := Map(Trim, s);
    forall i | 0 <= i < |tags| ensures trimmed[i] == tags[i] {
      assert tags[i] in tags;
      TrimSpaced(tags[i]);
    }
  }

  /** The article editor shows the tags joined by `", "`; saving that text
      unchanged gives back exactly the same tags. */
  lemma ParseJoinedTags(tags: seq<string>)
    requires forall t :: t in tags ==> IsTag(t)
    ensures ParseTags(Join(tags, ", ")) == tags
  {
    if tags == [] {
      assert Split([], ',') == [[]];
      assert Map(Trim, [[]]) == [Trim([])];
    } else {
      JoinCommaSpace(tags);
      SpaceAfterFirstNoComma(tags);
      SplitJoin(SpaceAfterFirst(tags), ',');
      TrimSpaceAfterFirst(tags);
      FilterTrue((t: string) => t != [], tags);
    }
  }

  /** `kbArticles.filter(a => a.id !== id)`. */
  function RemoveArticle(articles: seq<Article>, id: string): seq<Article>
  {
    Filter((a: Article) => a.id != id, articles)
  }

  /** Deletion drops every article with the id and keeps all others in their
      order, every copy of a repeated article included. */
  lemma RemoveArticleSpec(articles: seq<Article>, id: string)
    ensures IsSubsequence(RemoveArticle(articles, id), articles)
    ensures forall a :: a in RemoveArticle(articles, id) <==> a in articles && a.id != id
    ensures forall a :: multiset(RemoveArticle(articles, id))[a] == if a.id != id then multiset(articles)[a] else 0
  {
    FilterSpec((a: Article) => a.id != id, articles);
    forall a ensures multiset(RemoveArticle(articles, id))[a] == if a.id != id then multiset(articles)[a] else 0 {
      FilterCount((a: Article) => a.id != id, articles, a);
    }
  }
}
