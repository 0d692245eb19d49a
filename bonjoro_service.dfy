/** The Bonjoro service (src/bonjoro/bonjoro.service.ts): paginated
    listings, deletion of the campaign's open greets, the user lookup with
    its fallback, and the nightly bulk creation of greets, one request per
    technician. Every HTTP response is a parameter; the outbound calls are
    returned, in order, as a sequence of `Call`s. */
module BonjoroService {
  import opened Wrappers
  import opened Strings
  import opened BonjoroTypes
  import opened PestRoutesTypes

  /** Outbound calls, in the order they are made. `Warn` is a notification
      e-mail. */
  datatype Call =
    | Get(path: string)
    | DeleteGreets(ids: seq<string>)
    | CreateBulkGreets(request: BulkGreetRequest)
    | Warn(subject: string, text: string)

  const GREETS_PATH := "/greets?status=open"
  const USERS_PATH := "/users"

  // ---------------------------------------------------------------------
  // getAll: follow `next_page_url` and accumulate the pages' data

  /** The data of `pages`, concatenated in page order. */
  function Concat<T>(pages: seq<Page<T>>): seq<T>
  {
    if |pages| == 0 then [] else Concat(pages[..|pages| - 1]) + pages[|pages| - 1].data
  }

  /** The listing the server returns ends: its last page has no next page. */
  predicate Ends<T>(pages: seq<Page<T>>)
  {
    |pages| > 0 && !Truthy(pages[|pages| - 1].nextPageUrl)
  }

  /** The index of the first page without a next page. */
  function LastLinked<T>(pages: seq<Page<T>>): (k: nat)
    requires Ends(pages)
    ensures k < |pages| && !Truthy(pages[k].nextPageUrl)
    ensures forall j :: 0 <= j < k ==> Truthy(pages[j].nextPageUrl)
  {
    if !Truthy(pages[0].nextPageUrl) then 0 else 1 + LastLinked(pages[1..])
  }

  /** How many pages `getAll` fetches: only the first when it is empty,
      otherwise every page up to the first one without a next page. */
  function PagesFetched<T>(pages: seq<Page<T>>): (n: nat)
    requires Ends(pages)
    ensures 1 <= n <= |pages|
    ensures |pages[0].data| == 0 ==> n == 1
    ensures |pages[0].data| > 0 ==> !Truthy(pages[n - 1].nextPageUrl)
    ensures forall j :: 0 <= j < n - 1 ==> Truthy(pages[j].nextPageUrl)
  {
    if |pages[0].data| == 0 then 1 else LastLinked(pages) + 1
  }

  /** The argument of each fetch: nothing for the first, then the previous
      page's `next_page_url`. */
  function FetchArguments<T>(pages: seq<Page<T>>, n: nat): (urls: seq<Option<string>>)
    requires 1 <= n <= |pages|
    ensures |urls| == n && urls[0] == None
    ensures forall k :: 1 <= k < n ==> urls[k] == pages[k - 1].nextPageUrl
  {
    [None] + seq(n - 1, k requires 0 <= k < n - 1 => pages[k].nextPageUrl)
  }

  /** `getAll`: `pages` are the responses in the order they are fetched.
      Returns the accumulated items and the argument of each fetch. */
  method GetAll<T>(pages: seq<Page<T>>) returns (items: seq<T>, urls: seq<Option<string>>)
    requires Ends(pages)
    ensures items == Concat(pages[..PagesFetched(pages)])
    ensures urls == FetchArguments(pages, PagesFetched(pages))
  {
    var i := 0;
    var response := pages[0];
    items := response.data;
    urls := [None];
    assert pages[..1] == [pages[0]];
    while |items| > 0
      invariant 0 <= i < |pages| && response == pages[i]
      invariant items == Concat(pages[..i + 1])
      invariant forall j :: 0 <= j < i ==> Truthy(pages[j].nextPageUrl)
      invariant i > 0 ==> |pages[0].data| > 0
      invariant |items| >= |pages[0].data|
      invariant urls == FetchArguments(pages, i + 1)
      decreases |pages| - i
    {
      if Truthy(response.nextPageUrl) {
        urls := urls + [response.nextPageUrl];
        i := i + 1;
        response := pages[i];
        assert pages[..i + 1][..i] == pages[..i];
        items := items + response.data;
      } else {
        break;
      }
    }
    if |pages[0].data| == 0 {
      assert i == 0;
    } else {
      LastLinkedIsFirstUnlinked(pages, i);
    }
  }

  lemma {:induction false} LastLinkedIsFirstUnlinked<T>(pages: seq<Page<T>>, i: nat)
    requires Ends(pages) && i < |pages|
    requires forall j :: 0 <= j < i ==> Truthy(pages[j].nextPageUrl)
    requires !Truthy(pages[i].nextPageUrl)
    ensures LastLinked(pages) == i
  {
    if i > 0 {
      LastLinkedIsFirstUnlinked(pages[1..], i - 1);
    }
  }

  /** The request path of `getGreets`/`getUsers`: the next-page URL with its
      first occurrence of the configured base URL removed, or `firstPath`
      when there is no next page. */
  function PagePath(nextPageUrl: Option<string>, baseUrl: string, firstPath: string): (path: string)
    ensures !Truthy(nextPageUrl) ==> path == firstPath
    ensures Truthy(nextPageUrl) && !Contains(nextPageUrl.value, baseUrl) ==> path == nextPageUrl.value
  {
    if Truthy(nextPageUrl) then ReplaceFirst(nextPageUrl.value, baseUrl, "") else firstPath
  }

  /** A next-page URL that starts with the base URL becomes the relative
      path that follows it. */
  lemma PagePathStripsBase(baseUrl: string, rest: string, firstPath: string)
    requires baseUrl + rest != ""
    ensures PagePath(Some(baseUrl + rest), baseUrl, firstPath) == rest
  {
    var url := baseUrl + rest;
    assert url[..|baseUrl|] == baseUrl;
    assert FirstOccurrence(url, baseUrl, 0);
    assert url[|baseUrl|..] == rest;
  }

  /** One `Get` per fetch, to the path derived from its argument. */
  function ListingCalls(urls: seq<Option<string>>, baseUrl: string, firstPath: string): (calls: seq<Call>)
    ensures |calls| == |urls|
    ensures forall k :: 0 <= k < |urls| ==> calls[k] == Get(PagePath(urls[k], baseUrl, firstPath))
  {
    seq(|urls|, k requires 0 <= k < |urls| => Get(PagePath(urls[k], baseUrl, firstPath)))
  }

  // ---------------------------------------------------------------------
  // deleteOpenGreets

  /** The ids of the greets of the configured campaign, in listing order.
      An unset campaign id matches no greet (`===` against `undefined`). */
  function CampaignGreetIds(greets: seq<Greet>, campaignId: Option<string>): (ids: seq<string>)
    ensures |ids| <= |greets|
    ensures campaignId.None? ==> ids == []
  {
    if |greets| == 0 then []
    else
      var rest := CampaignGreetIds(greets[1..], campaignId);
      if campaignId == Some(greets[0].campaignUuid) then [greets[0].id] + rest else rest
  }

  /** Exactly the ids of the listed greets whose campaign uuid equals the
      configured campaign id. */
  lemma {:induction false} CampaignGreetIdsMembers(greets: seq<Greet>, campaignId: Option<string>)
    ensures forall id :: id in CampaignGreetIds(greets, campaignId) <==>
              exists g :: g in greets && g.id == id && campaignId == Some(g.campaignUuid)
  {
    if |greets| > 0 {
      CampaignGreetIdsMembers(greets[1..], campaignId);
      assert forall g :: g in greets <==> g == greets[0] || g in greets[1..];
    }
  }

  /** Filtering commutes with concatenation: order is preserved. */
  lemma {:induction false} CampaignGreetIdsAppend(a: seq<Greet>, b: seq<Greet>, campaignId: Option<string>)
    ensures CampaignGreetIds(a + b, campaignId) == CampaignGreetIds(a, campaignId) + CampaignGreetIds(b, campaignId)
  {
    if |a| == 0 {
      assert a + b == b;
    } else {
      CampaignGreetIdsAppend(a[1..], b, campaignId);
      assert (a + b)[0] == a[0];
      assert (a + b)[1..] == a[1..] + b;
    }
  }

  /** `deleteOpenGreets`: list the open greets, then delete the ones of the
      configured campaign in one call. */
  method DeleteOpenGreets(greetPages: seq<Page<Greet>>, baseUrl: string, campaignId: Option<string>)
    returns (calls: seq<Call>)
    requires Ends(greetPages)
    ensures |calls| == PagesFetched(greetPages) + 1
    ensures calls[..|calls| - 1] == ListingCalls(FetchArguments(greetPages, PagesFetched(greetPages)), baseUrl, GREETS_PATH)
    ensures calls[|calls| - 1] == DeleteGreets(CampaignGreetIds(Concat(greetPages[..PagesFetched(greetPages)]), campaignId))
    ensures forall k :: 0 <= k < |calls| ==> !calls[k].CreateBulkGreets?
  {
    var greets, urls := GetAll(greetPages);
    var greetIds := CampaignGreetIds(greets, campaignId);
    calls := ListingCalls(urls, baseUrl, GREETS_PATH) + [DeleteGreets(greetIds)];
    assert calls[..|calls| - 1] == ListingCalls(urls, baseUrl, GREETS_PATH);
  }

  // ---------------------------------------------------------------------
  // findUserByEmail

  /** The outcome of `findUserByEmail`: the first user with that exact
      e-mail, or the configured fallback user id (possibly unset) after a
      warning. */
  datatype UserLookup = Found(userId: string) | NotFound(fallback: Option<string>)
  {
    function Id(): Option<string>
    {
      match this
      case Found(u) => Some(u)
      case NotFound(f) => f
    }
  }

  function FindUserByEmail(email: string, users: seq<User>, fallback: Option<string>): (r: UserLookup)
    ensures r.NotFound? <==> forall u :: u in users ==> u.email != email
    ensures r.NotFound? ==> r.fallback == fallback
    ensures r.Found? ==> exists i :: 0 <= i < |users| && users[i].email == email && users[i].id == r.userId
  {
    if |users| == 0 then NotFound(fallback)
    else if users[0].email == email then Found(users[0].id)
    else
      assert forall u :: u in users <==> u == users[0] || u in users[1..];
      FindUserByEmail(email, users[1..], fallback)
  }

  /** The first user with a matching e-mail wins, whatever follows it. */
  lemma {:induction false} FindUserByEmailFirstMatch(email: string, before: seq<User>, u: User, after: seq<User>, fallback: Option<string>)
    requires forall v :: v in before ==> v.email != email
    requires u.email == email
    ensures FindUserByEmail(email, before + [u] + after, fallback) == Found(u.id)
  {
    var s := before + [u] + after;
    if |before| > 0 {
      assert s[0] == before[0] && before[0] in before;
      assert s[1..] == before[1..] + [u] + after;
      assert forall v :: v in before[1..] ==> v in before;
      FindUserByEmailFirstMatch(email, before[1..], u, after, fallback);
    } else {
      assert s[0] == u;
    }
  }

  /** The notification `findUserByEmail` sends when nobody matches. */
  function WarningCall(email: string): Call
  {
    Warn("No Bonjoro user found for email: " + email, "No match found. Assigning to David.")
  }

  // ---------------------------------------------------------------------
  // createGreets

  /** What `createGreets` reads for one of today's appointments: the e-mail
      of the route's technician and the customer. */
  datatype Visit = Visit(techEmail: string, customer: Customer)

  /** The greet line's reason: "Service at <address>, <city>, <state> <zip>". */
  function GreetReason(c: Customer): string
  {
    "Service at " + c.address + ", " + c.city + ", " + c.state + " " + c.zip
  }

  function VisitLine(v: Visit): GreetLine
  {
    GreetLine(v.customer.email, v.customer.fname, v.customer.lname, GreetReason(v.customer))
  }

  /** The Bonjoro user the visit's greet is assigned to. */
  function Assignee(v: Visit, users: seq<User>, fallback: Option<string>): Option<string>
  {
    FindUserByEmail(v.techEmail, users, fallback).Id()
  }

  predicate Distinct<T(==)>(s: seq<T>)
  {
    forall i, j :: 0 <= i < j < |s| ==> s[i] != s[j]
  }

  /** The assignees of `visits`, each once, in order of first appearance:
      the keys of the `greets` dictionary. */
  function Assignees(visits: seq<Visit>, users: seq<User>, fallback: Option<string>): (keys: seq<Option<string>>)
    ensures Distinct(keys)
  {
    if |visits| == 0 then []
    else
      var keys := Assignees(visits[..|visits| - 1], users, fallback);
      var a := Assignee(visits[|visits| - 1], users, fallback);
      if a in keys then keys else keys + [a]
  }

  /** There are no more assignees than visits. */
  lemma {:induction false} AssigneesBound(visits: seq<Visit>, users: seq<User>, fallback: Option<string>)
    ensures |Assignees(visits, users, fallback)| <= |visits|
  {
    if |visits| > 0 {
      AssigneesBound(visits[..|visits| - 1], users, fallback);
    }
  }

  /** The lines of assignee `a`'s request: one per visit assigned to `a`,
      in visit order. */
  function LinesFor(visits: seq<Visit>, users: seq<User>, fallback: Option<string>, a: Option<string>): seq<GreetLine>
  {
    if |visits| == 0 then []
    else
      var last := visits[|visits| - 1];
      LinesFor(visits[..|visits| - 1], users, fallback, a) +
      (if Assignee(last, users, fallback) == a then [VisitLine(last)] else [])
  }

  function Request(a: Option<string>, campaignId: Option<string>, lines: seq<GreetLine>): BulkGreetRequest
  {
    BulkGreetRequest(a, campaignId, 0, lines)
  }

  /** One request per key, in key order, holding the key's lines. */
  function RequestsFor(keys: seq<Option<string>>, visits: seq<Visit>, users: seq<User>, fallback: Option<string>,
                       campaignId: Option<string>): (reqs: seq<BulkGreetRequest>)
    ensures |reqs| == |keys|
    ensures forall k :: 0 <= k < |keys| ==> reqs[k].assigneeId == keys[k] && reqs[k].campaignId == campaignId
  {
    if |keys| == 0 then []
    else
      RequestsFor(keys[..|keys| - 1], visits, users, fallback, campaignId) +
      [Request(keys[|keys| - 1], campaignId, LinesFor(visits, users, fallback, keys[|keys| - 1]))]
  }

  /** The bulk requests `createGreets` sends. */
  function Requests(visits: seq<Visit>, users: seq<User>, fallback: Option<string>, campaignId: Option<string>): seq<BulkGreetRequest>
  {
    RequestsFor(Assignees(visits, users, fallback), visits, users, fallback, campaignId)
  }

  /** At most one request per appointment and one per assignee, each for
      the campaign. */
  lemma RequestsShape(visits: seq<Visit>, users: seq<User>, fallback: Option<string>, campaignId: Option<string>)
    ensures var reqs := Requests(visits, users, fallback, campaignId);
            && |reqs| <= |visits|
            && (forall i, j :: 0 <= i < j < |reqs| ==> reqs[i].assigneeId != reqs[j].assigneeId)
            && (forall k :: 0 <= k < |reqs| ==> reqs[k].campaignId == campaignId)
  {
    AssigneesBound(visits, users, fallback);
  }

  /** The technician e-mails of `visits`: the keys of the id cache. */
  function Emails(visits: seq<Visit>): set<string>
  {
    if |visits| == 0 then {} else Emails(visits[..|visits| - 1]) + {visits[|visits| - 1].techEmail}
  }

  /** An earlier visit has cached a truthy user id for `email`. */
  predicate Cached(prefix: seq<Visit>, email: string, users: seq<User>, fallback: Option<string>)
  {
    email in Emails(prefix) && Truthy(FindUserByEmail(email, users, fallback).Id())
  }

  /** The technician e-mails passed to `findUserByEmail`, in order: a visit
      looks its e-mail up unless the cache already holds a truthy id. */
  function Lookups(visits: seq<Visit>, users: seq<User>, fallback: Option<string>): (emails: seq<string>)
  {
    if |visits| == 0 then []
    else
      var prefix := visits[..|visits| - 1];
      var e := visits[|visits| - 1].techEmail;
      Lookups(prefix, users, fallback) + (if Cached(prefix, e, users, fallback) then [] else [e])
  }

  /** The warnings the lookups of `emails` send, in order. */
  function WarningCalls(emails: seq<string>, users: seq<User>): seq<Call>
  {
    if |emails| == 0 then []
    else
      var e := emails[|emails| - 1];
      WarningCalls(emails[..|emails| - 1], users) +
      (if FindUserByEmail(e, users, None).NotFound? then [WarningCall(e)] else [])
  }

  function CreateCalls(reqs: seq<BulkGreetRequest>): seq<Call>
  {
    if |reqs| == 0 then [] else CreateCalls(reqs[..|reqs| - 1]) + [CreateBulkGreets(reqs[|reqs| - 1])]
  }

  /** The state the loop of `createGreets` builds: the `greets` dictionary,
      its keys in insertion order, the user-id cache and the warnings sent. */
  datatype Grouping = Grouping(greets: map<Option<string>, BulkGreetRequest>, keys: seq<Option<string>>,
                               cache: map<string, Option<string>>, warnings: seq<Call>)

  function CachedId(cache: map<string, Option<string>>, email: string): Option<string>
  {
    if email in cache then cache[email] else None
  }

  /** The user id a visit is filed under: a truthy cached id, or else the
      answer of `findUserByEmail`. */
  function StepId(cache: map<string, Option<string>>, v: Visit, users: seq<User>, fallback: Option<string>): Option<string>
  {
    var cached := CachedId(cache, v.techEmail);
    if Truthy(cached) then cached else FindUserByEmail(v.techEmail, users, fallback).Id()
  }

  /** One iteration of the loop: reuse a truthy cached id, otherwise look
      the technician up (warning when nobody matches) and cache the answer;
      then open or extend the assignee's request. */
  function Step(g: Grouping, v: Visit, users: seq<User>, campaignId: Option<string>, fallback: Option<string>): Grouping
  {
    var cached := CachedId(g.cache, v.techEmail);
    var found := FindUserByEmail(v.techEmail, users, fallback);
    var id := StepId(g.cache, v, users, fallback);
    var cache := if Truthy(cached) then g.cache else g.cache[v.techEmail := id];
    var warnings := if !Truthy(cached) && found.NotFound? then g.warnings + [WarningCall(v.techEmail)] else g.warnings;
    if id !in g.greets then
      Grouping(g.greets[id := Request(id, campaignId, [VisitLine(v)])], g.keys + [id], cache, warnings)
    else
      Grouping(g.greets[id := g.greets[id].(lines := g.greets[id].lines + [VisitLine(v)])], g.keys, cache, warnings)
  }

  /** A cache holding only answers of `findUserByEmail` files every visit
      under its assignee. */
  lemma StepIdIsAssignee(cache: map<string, Option<string>>, v: Visit, users: seq<User>, fallback: Option<string>)
    requires forall e :: e in cache ==> cache[e] == FindUserByEmail(e, users, fallback).Id()
    ensures StepId(cache, v, users, fallback) == Assignee(v, users, fallback)
  {
  }

  /** The state after the loop has processed `visits`. */
  function Grouped(visits: seq<Visit>, users: seq<User>, campaignId: Option<string>, fallback: Option<string>): (g: Grouping)
    ensures |g.keys| <= |visits|
  {
    if |visits| == 0 then Grouping(map[], [], map[], [])
    else Step(Grouped(visits[..|visits| - 1], users, campaignId, fallback), visits[|visits| - 1], users, campaignId, fallback)
  }

  /** The cache only ever holds what `findUserByEmail` answers, for exactly
      the e-mails seen so far. */
  lemma {:induction false} GroupedCache(visits: seq<Visit>, users: seq<User>, campaignId: Option<string>, fallback: Option<string>)
    ensures Grouped(visits, users, campaignId, fallback).cache.Keys == Emails(visits)
    ensures forall e :: e in Grouped(visits, users, campaignId, fallback).cache ==>
              Grouped(visits, users, campaignId, fallback).cache[e] == FindUserByEmail(e, users, fallback).Id()
  {
    if |visits| > 0 {
      GroupedCache(visits[..|visits| - 1], users, campaignId, fallback);
    }
  }

  /** The requests are opened for exactly the assignees seen so far. */
  lemma {:induction false} GroupedDomain(visits: seq<Visit>, users: seq<User>, campaignId: Option<string>, fallback: Option<string>)
    ensures forall k :: k in Grouped(visits, users, campaignId, fallback).greets <==> k in Assignees(visits, users, fallback)
  {
    if |visits| > 0 {
      var prefix, v := visits[..|visits| - 1], visits[|visits| - 1];
      GroupedDomain(prefix, users, campaignId, fallback);
      GroupedCache(prefix, users, campaignId, fallback);
      StepIdIsAssignee(Grouped(prefix, users, campaignId, fallback).cache, v, users, fallback);
    }
  }

  /** The keys are the assignees in order of first appearance. */
  lemma {:induction false} GroupedKeys(visits: seq<Visit>, users: seq<User>, campaignId: Option<string>, fallback: Option<string>)
    ensures Grouped(visits, users, campaignId, fallback).keys == Assignees(visits, users, fallback)
  {
    if |visits| > 0 {
      var prefix, v := visits[..|visits| - 1], visits[|visits| - 1];
      GroupedKeys(prefix, users, campaignId, fallback);
      GroupedDomain(prefix, users, campaignId, fallback);
      GroupedCache(prefix, users, campaignId, fallback);
      StepIdIsAssignee(Grouped(prefix, users, campaignId, fallback).cache, v, users, fallback);
    }
  }

  /** Each request holds its assignee's lines in visit order. */
  lemma {:induction false} GroupedLines(visits: seq<Visit>, users: seq<User>, campaignId: Option<string>, fallback: Option<string>)
    ensures forall k :: k in Grouped(visits, users, campaignId, fallback).greets ==>
              Grouped(visits, users, campaignId, fallback).greets[k] == Request(k, campaignId, LinesFor(visits, users, fallback, k))
  {
    if |visits| > 0 {
      var prefix, v := visits[..|visits| - 1], visits[|visits| - 1];
      GroupedLines(prefix, users, campaignId, fallback);
      GroupedDomain(prefix, users, campaignId, fallback);
      GroupedCache(prefix, users, campaignId, fallback);
      var g := Grouped(prefix, users, campaignId, fallback);
      var id := Assignee(v, users, fallback);
      StepIdIsAssignee(g.cache, v, users, fallback);
      if id !in g.greets {
        NoLinesBeforeFirstVisit(prefix, users, fallback, id);
      }
      forall k | k in Grouped(visits, users, campaignId, fallback).greets
        ensures Grouped(visits, users, campaignId, fallback).greets[k] == Request(k, campaignId, LinesFor(visits, users, fallback, k))
      {
        assert LinesFor(visits, users, fallback, k) ==
               LinesFor(prefix, users, fallback, k) + (if id == k then [VisitLine(v)] else []);
      }
    }
  }

  /** Every visit lands in its assignee's request: the keys are the
      assignees in order of first appearance, and each request holds its
      assignee's lines in visit order. */
  lemma GroupedGreets(visits: seq<Visit>, users: seq<User>, campaignId: Option<string>, fallback: Option<string>)
    ensures Grouped(visits, users, campaignId, fallback).keys == Assignees(visits, users, fallback)
    ensures forall k :: k in Grouped(visits, users, campaignId, fallback).greets <==> k in Assignees(visits, users, fallback)
    ensures forall k :: k in Grouped(visits, users, campaignId, fallback).greets ==>
              Grouped(visits, users, campaignId, fallback).greets[k] == Request(k, campaignId, LinesFor(visits, users, fallback, k))
  {
    GroupedKeys(visits, users, campaignId, fallback);
    GroupedDomain(visits, users, campaignId, fallback);
    GroupedLines(visits, users, campaignId, fallback);
  }

  /** The warnings are those of the lookups the cache does not spare. */
  lemma {:induction false} GroupedWarnings(visits: seq<Visit>, users: seq<User>, campaignId: Option<string>, fallback: Option<string>)
    ensures Grouped(visits, users, campaignId, fallback).warnings == WarningCalls(Lookups(visits, users, fallback), users)
  {
    if |visits| > 0 {
      var prefix, v := visits[..|visits| - 1], visits[|visits| - 1];
      GroupedWarnings(prefix, users, campaignId, fallback);
      GroupedCache(prefix, users, campaignId, fallback);
      var e := v.techEmail;
      assert Truthy(CachedId(Grouped(prefix, users, campaignId, fallback).cache, e)) <==> Cached(prefix, e, users, fallback);
      assert FindUserByEmail(e, users, fallback).NotFound? == FindUserByEmail(e, users, None).NotFound?;
      var lookups := Lookups(prefix, users, fallback);
      if Cached(prefix, e, users, fallback) {
        assert Lookups(visits, users, fallback) == lookups;
      } else {
        assert Lookups(visits, users, fallback) == lookups + [e];
        WarningStep(lookups, e, users);
      }
    }
  }

  /** The loop of `createGreets` that fills the `greets` dictionary and the
      user-id cache: `keys` is the dictionary's insertion order. */
  method GroupByAssignee(visits: seq<Visit>, users: seq<User>, campaignId: Option<string>, fallback: Option<string>)
    returns (greets: map<Option<string>, BulkGreetRequest>, keys: seq<Option<string>>, warnings: seq<Call>)
    ensures keys == Assignees(visits, users, fallback)
    ensures forall k :: k in greets <==> k in keys
    ensures forall k :: k in greets ==> greets[k] == Request(k, campaignId, LinesFor(visits, users, fallback, k))
    ensures warnings == WarningCalls(Lookups(visits, users, fallback), users)
  {
    greets, keys, warnings := map[], [], [];
    var cache: map<string, Option<string>> := map[];
    var i := 0;
    while i < |visits|
      invariant 0 <= i <= |visits|
      invariant Grouping(greets, keys, cache, warnings) == Grouped(visits[..i], users, campaignId, fallback)
    {
      var v := visits[i];
      assert visits[..i + 1][..i] == visits[..i];
      var id: Option<string> := if v.techEmail in cache then cache[v.techEmail] else None;
      if !Truthy(id) {
        var found := FindUserByEmail(v.techEmail, users, fallback);
        if found.NotFound? {
          warnings := warnings + [WarningCall(v.techEmail)];
        }
        id := found.Id();
        cache := cache[v.techEmail := id];
      }
      var line := VisitLine(v);
      if id !in greets {
        greets := greets[id := Request(id, campaignId, [line])];
        keys := keys + [id];
      } else {
        greets := greets[id := greets[id].(lines := greets[id].lines + [line])];
      }
      i := i + 1;
    }
    assert visits[..i] == visits;
    GroupedGreets(visits, users, campaignId, fallback);
    GroupedWarnings(visits, users, campaignId, fallback);
  }

  lemma WarningStep(emails: seq<string>, e: string, users: seq<User>)
    ensures WarningCalls(emails + [e], users) ==
            WarningCalls(emails, users) + (if FindUserByEmail(e, users, None).NotFound? then [WarningCall(e)] else [])
  {
    assert (emails + [e])[..|emails|] == emails;
  }

  /** The dictionary's values in key order. */
  function ValuesInOrder(keys: seq<Option<string>>, greets: map<Option<string>, BulkGreetRequest>): seq<BulkGreetRequest>
    requires forall k :: k in keys ==> k in greets
  {
    if |keys| == 0 then [] else ValuesInOrder(keys[..|keys| - 1], greets) + [greets[keys[|keys| - 1]]]
  }

  /** The second loop of `createGreets`: one bulk request per key of the
      dictionary, in insertion order. */
  method SendRequests(greets: map<Option<string>, BulkGreetRequest>, keys: seq<Option<string>>) returns (calls: seq<Call>)
    requires forall k :: k in keys ==> k in greets
    ensures calls == CreateCalls(ValuesInOrder(keys, greets))
  {
    calls := [];
    var j := 0;
    while j < |keys|
      invariant 0 <= j <= |keys|
      invariant calls == CreateCalls(ValuesInOrder(keys[..j], greets))
    {
      assert keys[..j + 1][..j] == keys[..j];
      calls := calls + [CreateBulkGreets(greets[keys[j]])];
      j := j + 1;
    }
    assert keys[..j] == keys;
  }

  /** Read in key order, the dictionary holds exactly the requests of the
      specification. */
  lemma {:induction false} ValuesAreRequests(keys: seq<Option<string>>, greets: map<Option<string>, BulkGreetRequest>,
                                             visits: seq<Visit>, users: seq<User>, campaignId: Option<string>, fallback: Option<string>)
    requires forall k :: k in keys ==> k in greets
    requires forall k :: k in greets ==> greets[k] == Request(k, campaignId, LinesFor(visits, users, fallback, k))
    ensures ValuesInOrder(keys, greets) == RequestsFor(keys, visits, users, fallback, campaignId)
  {
    if |keys| > 0 {
      ValuesAreRequests(keys[..|keys| - 1], greets, visits, users, campaignId, fallback);
    }
  }

  /** `createGreets`: `visits` are today's appointments in the order the
      field-service system lists them, `userPages` the user listing.
      Calls: the user listing, the lookup warnings, then one bulk request
      per assignee in the dictionary's insertion order. */
  method CreateGreets(visits: seq<Visit>, userPages: seq<Page<User>>, baseUrl: string,
                      campaignId: Option<string>, fallback: Option<string>)
    returns (calls: seq<Call>)
    requires Ends(userPages)
    ensures calls ==
      ListingCalls(FetchArguments(userPages, PagesFetched(userPages)), baseUrl, USERS_PATH) +
      WarningCalls(Lookups(visits, Concat(userPages[..PagesFetched(userPages)]), fallback), Concat(userPages[..PagesFetched(userPages)])) +
      CreateCalls(Requests(visits, Concat(userPages[..PagesFetched(userPages)]), fallback, campaignId))
  {
    var users, urls := GetAll(userPages);
    var greets, keys, warnings := GroupByAssignee(visits, users, campaignId, fallback);
    var creates := SendRequests(greets, keys);
    ValuesAreRequests(keys, greets, visits, users, campaignId, fallback);
    calls := ListingCalls(urls, baseUrl, USERS_PATH) + warnings + creates;
  }

  lemma {:induction false} WarningCallsAreWarnings(emails: seq<string>, users: seq<User>)
    ensures forall k :: 0 <= k < |WarningCalls(emails, users)| ==> WarningCalls(emails, users)[k].Warn?
  {
    if |emails| > 0 {
      WarningCallsAreWarnings(emails[..|emails| - 1], users);
    }
  }

  /** A key that is not an assignee yet has no lines. */
  lemma {:induction false} NoLinesBeforeFirstVisit(visits: seq<Visit>, users: seq<User>, fallback: Option<string>, a: Option<string>)
    requires a !in Assignees(visits, users, fallback)
    ensures LinesFor(visits, users, fallback, a) == []
  {
    if |visits| > 0 {
      NoLinesBeforeFirstVisit(visits[..|visits| - 1], users, fallback, a);
    }
  }

  // ---------------------------------------------------------------------
  // Counting: every appointment becomes exactly one greet line

  function TotalLines(reqs: seq<BulkGreetRequest>): nat
  {
    if |reqs| == 0 then 0 else TotalLines(reqs[..|reqs| - 1]) + |reqs[|reqs| - 1].lines|
  }

  /** The number of lines the assignees in `keys` receive. */
  function LineCount(keys: seq<Option<string>>, visits: seq<Visit>, users: seq<User>, fallback: Option<string>): nat
  {
    if |keys| == 0 then 0
    else LineCount(keys[..|keys| - 1], visits, users, fallback) + |LinesFor(visits, users, fallback, keys[|keys| - 1])|
  }

  lemma {:induction false} TotalLinesOfRequests(keys: seq<Option<string>>, visits: seq<Visit>, users: seq<User>,
                                                fallback: Option<string>, campaignId: Option<string>)
    ensures TotalLines(RequestsFor(keys, visits, users, fallback, campaignId)) == LineCount(keys, visits, users, fallback)
  {
    if |keys| > 0 {
      TotalLinesOfRequests(keys[..|keys| - 1], visits, users, fallback, campaignId);
      var reqs := RequestsFor(keys, visits, users, fallback, campaignId);
      assert reqs[..|reqs| - 1] == RequestsFor(keys[..|keys| - 1], visits, users, fallback, campaignId);
    }
  }

  /** One more visit adds one line, to its assignee, if that assignee is
      among `keys` (each key counted once). */
  lemma {:induction false} LineCountStep(keys: seq<Option<string>>, visits: seq<Visit>, users: seq<User>, fallback: Option<string>)
    requires |visits| > 0
    requires Distinct(keys)
    ensures LineCount(keys, visits, users, fallback) ==
            LineCount(keys, visits[..|visits| - 1], users, fallback) +
            (if Assignee(visits[|visits| - 1], users, fallback) in keys then 1 else 0)
  {
    if |keys| > 0 {
      var init := keys[..|keys| - 1];
      assert Distinct(init);
      assert keys == init + [keys[|keys| - 1]];
      assert keys[|keys| - 1] !in init;
      LineCountStep(init, visits, users, fallback);
    }
  }

  /** `createGreets` sends exactly one greet line per appointment of the day. */
  lemma {:induction false} RequestsCoverVisits(visits: seq<Visit>, users: seq<User>, fallback: Option<string>, campaignId: Option<string>)
    ensures TotalLines(Requests(visits, users, fallback, campaignId)) == |visits|
  {
    TotalLinesOfRequests(Assignees(visits, users, fallback), visits, users, fallback, campaignId);
    AssigneeLinesCoverVisits(visits, users, fallback);
  }

  lemma {:induction false} AssigneeLinesCoverVisits(visits: seq<Visit>, users: seq<User>, fallback: Option<string>)
    ensures LineCount(Assignees(visits, users, fallback), visits, users, fallback) == |visits|
  {
    if |visits| > 0 {
      var prefix := visits[..|visits| - 1];
      var a := Assignee(visits[|visits| - 1], users, fallback);
      var keys := Assignees(prefix, users, fallback);
      AssigneeLinesCoverVisits(prefix, users, fallback);
      if a in keys {
        LineCountStep(keys, visits, users, fallback);
      } else {
        var keys' := keys + [a];
        assert Distinct(keys');
        LineCountStep(keys', visits, users, fallback);
        assert keys'[..|keys'| - 1] == keys;
        NoLinesBeforeFirstVisit(prefix, users, fallback, a);
      }
    }
  }

  // ---------------------------------------------------------------------
  // The id cache

  /** Every e-mail looked up belongs to a visit. */
  lemma {:induction false} LookupsAreTechnicians(visits: seq<Visit>, users: seq<User>, fallback: Option<string>)
    ensures forall e :: e in Lookups(visits, users, fallback) ==> e in Emails(visits)
  {
    if |visits| > 0 {
      LookupsAreTechnicians(visits[..|visits| - 1], users, fallback);
    }
  }

  /** Once a technician's user id is known to be truthy it is never looked
      up (nor warned about) again. */
  lemma {:induction false} TruthyIdLookedUpOnce(visits: seq<Visit>, users: seq<User>, fallback: Option<string>, e: string)
    requires Truthy(FindUserByEmail(e, users, fallback).Id())
    ensures multiset(Lookups(visits, users, fallback))[e] <= 1
  {
    if |visits| > 0 {
      var prefix := visits[..|visits| - 1];
      TruthyIdLookedUpOnce(prefix, users, fallback, e);
      LookupsAreTechnicians(prefix, users, fallback);
      var lookups := Lookups(prefix, users, fallback);
      if e !in Emails(prefix) {
        assert e !in lookups;
        assert multiset(lookups)[e] == 0;
      }
      assert Lookups(visits, users, fallback) ==
             lookups + (if Cached(prefix, visits[|visits| - 1].techEmail, users, fallback) then [] else [visits[|visits| - 1].techEmail]);
    }
  }

  // ---------------------------------------------------------------------
  // nightlyJob

  /** The bulk requests among `calls`, in order. */
  function Creations(calls: seq<Call>): seq<BulkGreetRequest>
  {
    if |calls| == 0 then []
    else Creations(calls[..|calls| - 1]) +
         (if calls[|calls| - 1].CreateBulkGreets? then [calls[|calls| - 1].request] else [])
  }

  /** The id lists of the deletions among `calls`, in order. */
  function Deletions(calls: seq<Call>): seq<seq<string>>
  {
    if |calls| == 0 then []
    else Deletions(calls[..|calls| - 1]) +
         (if calls[|calls| - 1].DeleteGreets? then [calls[|calls| - 1].ids] else [])
  }

  lemma {:induction false} CreationsAppend(a: seq<Call>, b: seq<Call>)
    ensures Creations(a + b) == Creations(a) + Creations(b)
  {
    if |b| == 0 {
      assert a + b == a;
    } else {
      CreationsAppend(a, b[..|b| - 1]);
      assert (a + b)[..|a + b| - 1] == a + b[..|b| - 1];
    }
  }

  lemma {:induction false} DeletionsAppend(a: seq<Call>, b: seq<Call>)
    ensures Deletions(a + b) == Deletions(a) + Deletions(b)
  {
    if |b| == 0 {
      assert a + b == a;
    } else {
      DeletionsAppend(a, b[..|b| - 1]);
      assert (a + b)[..|a + b| - 1] == a + b[..|b| - 1];
    }
  }

  /** Filtering commutes with concatenation. */
  lemma FiltersAppend(a: seq<Call>, b: seq<Call>)
    ensures Creations(a + b) == Creations(a) + Creations(b)
    ensures Deletions(a + b) == Deletions(a) + Deletions(b)
  {
    CreationsAppend(a, b);
    DeletionsAppend(a, b);
  }

  /** A call sequence without deletions has no `DeleteGreets` anywhere. */
  lemma {:induction false} NoDeletionAnywhere(calls: seq<Call>)
    requires Deletions(calls) == []
    ensures forall k :: 0 <= k < |calls| ==> !calls[k].DeleteGreets?
  {
    if |calls| > 0 {
      NoDeletionAnywhere(calls[..|calls| - 1]);
    }
  }

  lemma {:induction false} ListingCallsFilter(urls: seq<Option<string>>, baseUrl: string, firstPath: string)
    ensures Creations(ListingCalls(urls, baseUrl, firstPath)) == []
    ensures Deletions(ListingCalls(urls, baseUrl, firstPath)) == []
  {
    if |urls| > 0 {
      var init := urls[..|urls| - 1];
      ListingCallsFilter(init, baseUrl, firstPath);
      assert ListingCalls(urls, baseUrl, firstPath)[..|urls| - 1] == ListingCalls(init, baseUrl, firstPath);
    }
  }

  lemma {:induction false} WarningCallsFilter(emails: seq<string>, users: seq<User>)
    ensures Creations(WarningCalls(emails, users)) == []
    ensures Deletions(WarningCalls(emails, users)) == []
  {
    if |emails| > 0 {
      var init := emails[..|emails| - 1];
      WarningCallsFilter(init, users);
      var e := emails[|emails| - 1];
      FiltersAppend(WarningCalls(init, users), if FindUserByEmail(e, users, None).NotFound? then [WarningCall(e)] else []);
    }
  }

  lemma {:induction false} CreateCallsFilter(reqs: seq<BulkGreetRequest>)
    ensures Creations(CreateCalls(reqs)) == reqs
    ensures Deletions(CreateCalls(reqs)) == []
  {
    if |reqs| > 0 {
      var init := reqs[..|reqs| - 1];
      CreateCallsFilter(init);
      FiltersAppend(CreateCalls(init), [CreateBulkGreets(reqs[|reqs| - 1])]);
    }
  }

  /** The deletion step's calls: a listing, then one deletion. */
  lemma DeleteStepFiltered(urls: seq<Option<string>>, baseUrl: string, ids: seq<string>)
    ensures Deletions(ListingCalls(urls, baseUrl, GREETS_PATH) + [DeleteGreets(ids)]) == [ids]
    ensures Creations(ListingCalls(urls, baseUrl, GREETS_PATH) + [DeleteGreets(ids)]) == []
  {
    var listing := ListingCalls(urls, baseUrl, GREETS_PATH);
    ListingCallsFilter(urls, baseUrl, GREETS_PATH);
    FiltersAppend(listing, [DeleteGreets(ids)]);
    assert [DeleteGreets(ids)][..0] == [];
  }

  /** The creation step's calls: a listing, warnings, then the requests. */
  lemma CreateStepFiltered(urls: seq<Option<string>>, baseUrl: string, emails: seq<string>, users: seq<User>,
                           reqs: seq<BulkGreetRequest>)
    ensures var calls := ListingCalls(urls, baseUrl, USERS_PATH) + WarningCalls(emails, users) + CreateCalls(reqs);
            Creations(calls) == reqs && Deletions(calls) == []
  {
    var listing := ListingCalls(urls, baseUrl, USERS_PATH);
    var warnings := WarningCalls(emails, users);
    ListingCallsFilter(urls, baseUrl, USERS_PATH);
    WarningCallsFilter(emails, users);
    CreateCallsFilter(reqs);
    FiltersAppend(listing, warnings);
    FiltersAppend(listing + warnings, CreateCalls(reqs));
  }

  /** In `a + b`, where `a` creates nothing and `b` deletes nothing, every
      deletion comes before every creation. */
  lemma DeletionsFirst(a: seq<Call>, b: seq<Call>)
    requires forall k :: 0 <= k < |a| ==> !a[k].CreateBulkGreets?
    requires forall k :: 0 <= k < |b| ==> !b[k].DeleteGreets?
    ensures forall i, j :: 0 <= i < |a + b| && 0 <= j < |a + b| && (a + b)[i].DeleteGreets? && (a + b)[j].CreateBulkGreets? ==> i < j
  {
  }

  /** The nightly job: delete the campaign's open greets, then create the
      day's greets. It deletes once, with the campaign's listed greet ids,
      sends exactly the specified bulk requests, and issues every deletion
      before any creation. */
  method NightlyJob(greetPages: seq<Page<Greet>>, userPages: seq<Page<User>>, visits: seq<Visit>, baseUrl: string,
                    campaignId: Option<string>, fallback: Option<string>)
    returns (calls: seq<Call>)
    requires Ends(greetPages) && Ends(userPages)
    ensures Deletions(calls) == [CampaignGreetIds(Concat(greetPages[..PagesFetched(greetPages)]), campaignId)]
    ensures Creations(calls) == Requests(visits, Concat(userPages[..PagesFetched(userPages)]), fallback, campaignId)
    ensures forall i, j :: 0 <= i < |calls| && 0 <= j < |calls| && calls[i].DeleteGreets? && calls[j].CreateBulkGreets? ==> i < j
  {
    var deletes := DeleteOpenGreets(greetPages, baseUrl, campaignId);
    var creates := CreateGreets(visits, userPages, baseUrl, campaignId, fallback);
    calls := deletes + creates;
    var users := Concat(userPages[..PagesFetched(userPages)]);
    CreateStepFiltered(FetchArguments(userPages, PagesFetched(userPages)), baseUrl, Lookups(visits, users, fallback), users,
                       Requests(visits, users, fallback, campaignId));
    assert deletes == deletes[..|deletes| - 1] + [deletes[|deletes| - 1]];
    DeleteStepFiltered(FetchArguments(greetPages, PagesFetched(greetPages)), baseUrl,
                       CampaignGreetIds(Concat(greetPages[..PagesFetched(greetPages)]), campaignId));
    FiltersAppend(deletes, creates);
    NoDeletionAnywhere(creates);
    DeletionsFirst(deletes, creates);
  }
}
