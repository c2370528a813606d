/**
  Cursor pagination over three connections at once (pathfinder_core/adapters/github_graphql.py).
  Each request asks for the next page of every connection that is still active; they may finish at
  different requests.  Transport, retries and the shape of single items are part of the server.
*/
module GraphQLPages {
  import opened Wrappers

  datatype Key = LatestReviews | ReviewRequests | ReviewThreads

  const Keys: seq<Key> := [LatestReviews, ReviewRequests, ReviewThreads]

  datatype Item = Item(identity: string, content: string)

  datatype Page = Page(items: seq<Item>, total: nat, hasNext: bool, cursor: Option<string>)

  /** `core` is the repository and pull request; `exact` says that they are the ones asked for. */
  datatype Response = Response(requestId: string, core: string, exact: bool, connections: map<Key, Page>)

  datatype Variables = Variables(cursors: map<Key, Option<string>>, wanted: set<Key>)

  datatype PageError =
    | TransportFailed | RequestIdReused | WrongPullRequest | PullRequestChanged | UnexpectedConnection | MissingConnection
    | MalformedConnection | TotalChanged | ItemRepeated | CursorStuck | CountIncomplete

  /** What the server answers to the request with the given number. */
  type Server = (nat, Variables) -> Result<Response, PageError>

  /** A page that promises more carries a cursor. */
  predicate WellFormed(p: Page) { p.hasNext ==> p.cursor.Some? }

  datatype Connection = Connection(cursor: Option<string>, active: bool, items: seq<Item>, total: Option<nat>, pages: nat, seen: set<string>)

  const Fresh := Connection(None, true, [], None, 0, {})

  /** `complete`, `total` and `cursor` as the snapshot reports them. */
  datatype Reported = Reported(items: seq<Item>, pages: nat, total: nat, complete: bool, cursor: Option<string>)

  datatype Snapshot = Snapshot(core: string, connections: map<Key, Reported>, requestIds: seq<string>)

  // ---------------------------------------------------------------- one page

  predicate Distinct<T(==)>(s: seq<T>) { forall i, j :: 0 <= i < j < |s| ==> s[i] != s[j] }

  predicate Repeats(items: seq<Item>, more: seq<Item>) {
    exists i :: 0 <= i < |more| &&
      ((exists k :: 0 <= k < |items| && items[k].identity == more[i].identity)
       || (exists k :: 0 <= k < i && more[k].identity == more[i].identity))
  }

  /** What the loop does with one connection's page. */
  function AddPage(c: Connection, p: Page): Result<Connection, PageError> {
    if !WellFormed(p) then Err(MalformedConnection)
    else if c.total.Some? && c.total.value != p.total then Err(TotalChanged)
    else if Repeats(c.items, p.items) then Err(ItemRepeated)
    else if p.hasNext && p.cursor.Some? && p.cursor.value in c.seen then Err(CursorStuck)
    else if !p.hasNext && p.total != |c.items| + |p.items| then Err(CountIncomplete)
    else Ok(Connection(p.cursor, p.hasNext, c.items + p.items, Some(p.total), c.pages + 1,
                       if p.cursor.Some? then c.seen + {p.cursor.value} else c.seen))
  }

  // ---------------------------------------------------------------- what the pages were

  function Concat(pages: seq<Page>): seq<Item> {
    if |pages| == 0 then [] else Concat(pages[..|pages| - 1]) + pages[|pages| - 1].items
  }

  ghost predicate UniqueIdentities(items: seq<Item>) {
    forall i, j :: 0 <= i < j < |items| ==> items[i].identity != items[j].identity
  }

  function CursorsOf(history: seq<Page>): set<string> {
    set k | 0 <= k < |history| && history[k].cursor.Some? :: history[k].cursor.value
  }

  /** The connection as its pages so far leave it. */
  ghost predicate Follows(c: Connection, history: seq<Page>) {
    && c.pages == |history| && c.items == Concat(history) && UniqueIdentities(c.items)
    && (forall k :: 0 <= k < |history| ==> WellFormed(history[k]) && c.total == Some(history[k].total))
    && (forall k :: 0 <= k < |history| - 1 ==> history[k].hasNext)
    && (if |history| == 0 then c == Fresh
        else c.cursor == history[|history| - 1].cursor && c.active == history[|history| - 1].hasNext)
    && (!c.active ==> c.total == Some(|c.items|))
    && c.seen == CursorsOf(history)
    && (forall k, m :: 0 <= k < m < |history| && history[m].hasNext ==> history[k].cursor != history[m].cursor)
  }

  lemma PageFollows(c: Connection, history: seq<Page>, p: Page)
    requires Follows(c, history) && c.active && AddPage(c, p).Ok?
    ensures Follows(AddPage(c, p).value, history + [p])
  {
    var more := history + [p];
    assert more[..|history|] == history;
    var d := AddPage(c, p).value;
    forall i, j | 0 <= i < j < |d.items|
      ensures d.items[i].identity != d.items[j].identity
    {
      if j >= |c.items| { assert d.items[j] == p.items[j - |c.items|]; }
      if i >= |c.items| { assert d.items[i] == p.items[i - |c.items|]; }
    }
  }

  /** The cursor was already given with an earlier page. */
  ghost predicate Stuck(history: seq<Page>, p: Page) {
    exists k :: 0 <= k < |history| && history[k].cursor.Some? && history[k].cursor == p.cursor
  }

  lemma RepeatsExactly(items: seq<Item>, more: seq<Item>)
    requires UniqueIdentities(items)
    ensures Repeats(items, more) <==> !UniqueIdentities(items + more)
  {
    var all := items + more;
    assert forall i :: 0 <= i < |more| ==> all[|items| + i] == more[i];
    if Repeats(items, more) {
      var i :| 0 <= i < |more| &&
        ((exists k :: 0 <= k < |items| && items[k].identity == more[i].identity) || (exists k :: 0 <= k < i && more[k].identity == more[i].identity));
      if k :| 0 <= k < |items| && items[k].identity == more[i].identity {
        assert all[k].identity == all[|items| + i].identity;
      } else {
        var k :| 0 <= k < i && more[k].identity == more[i].identity;
        assert all[|items| + k].identity == all[|items| + i].identity;
      }
    }
    if !Repeats(items, more) {
      forall i, j | 0 <= i < j < |all| ensures all[i].identity != all[j].identity {
        if j >= |items| { assert all[j] == more[j - |items|]; }
        if i >= |items| { assert all[i] == more[i - |items|]; }
      }
    }
  }

  /**
    A connection's next page is taken exactly if a page that promises more has a cursor, and a new one, the total
    stays, no identity comes twice, and the last page completes the total; of several faults the first of these
    is reported, the cursor's novelty after the identities.
  */
  lemma AddPageExactly(c: Connection, history: seq<Page>, p: Page)
    requires Follows(c, history) && c.active
    ensures AddPage(c, p) ==
              if p.hasNext && p.cursor == None then Err(MalformedConnection)
              else if exists k :: 0 <= k < |history| && history[k].total != p.total then Err(TotalChanged)
              else if !UniqueIdentities(c.items + p.items) then Err(ItemRepeated)
              else if p.hasNext && Stuck(history, p) then Err(CursorStuck)
              else if !p.hasNext && p.total != |c.items| + |p.items| then Err(CountIncomplete)
              else Ok(Connection(p.cursor, p.hasNext, c.items + p.items, Some(p.total), |history| + 1, CursorsOf(history + [p])))
  {
    RepeatsExactly(c.items, p.items);
    StuckExactly(history, p);
    TotalKept(c, history, p);
    hide Repeats, UniqueIdentities, Stuck, CursorsOf;
    CursorsGrow(history, p);
  }

  lemma TotalKept(c: Connection, history: seq<Page>, p: Page)
    requires Follows(c, history)
    ensures c.total.Some? && c.total.value != p.total <==> exists k :: 0 <= k < |history| && history[k].total != p.total
  {
    hide Concat, UniqueIdentities, CursorsOf;
    if |history| > 0 { assert c.total == Some(history[0].total); }
  }

  lemma StuckExactly(history: seq<Page>, p: Page)
    ensures p.cursor.Some? ==> (p.cursor.value in CursorsOf(history) <==> Stuck(history, p))
  {}

  lemma CursorsGrow(history: seq<Page>, p: Page)
    ensures CursorsOf(history + [p]) == if p.cursor.Some? then CursorsOf(history) + {p.cursor.value} else CursorsOf(history)
  {
    var more := history + [p];
    forall x ensures x in CursorsOf(more) <==> x in CursorsOf(history) || p.cursor == Some(x) {
      if k :| 0 <= k < |history| && history[k].cursor == Some(x) { assert more[k].cursor == Some(x); }
      if p.cursor == Some(x) { assert more[|history|].cursor == Some(x); }
    }
  }

  // ---------------------------------------------------------------- the loop over requests

  function VariablesOf(connections: map<Key, Connection>): Variables
    requires forall k: Key :: k in connections
  {
    Variables(map k: Key | true :: connections[k].cursor, set k: Key | connections[k].active)
  }

  /**
    The run so far: one response per request, and for every connection its pages are the first
    `pages` responses, each asked for with the cursor the page before it returned.
  */
  ghost predicate Run(server: Server, responses: seq<Response>, asked: seq<Variables>, connections: map<Key, Connection>) {
    && |asked| == |responses| && (forall k: Key :: k in connections)
    && (forall r :: 0 <= r < |responses| ==> server(r, asked[r]) == Ok(responses[r]))
    && (forall i, j :: 0 <= i < j < |responses| ==> responses[i].requestId != responses[j].requestId)
    && forall k: Key :: Paged(k, responses, asked, connections[k])
  }

  /** The pages of one connection. */
  ghost function History(k: Key, responses: seq<Response>, n: nat): seq<Page>
    requires n <= |responses| && forall r :: 0 <= r < n ==> k in responses[r].connections
  {
    seq(n, r requires 0 <= r < n => responses[r].connections[k])
  }

  ghost predicate Paged(k: Key, responses: seq<Response>, asked: seq<Variables>, c: Connection)
    requires |asked| == |responses|
  {
    && c.pages <= |responses| && (c.active ==> c.pages == |responses|)
    && Placed(k, responses, asked, c.pages)
    && Follows(c, History(k, responses, c.pages))
  }

  /** Pages are asked for and given in the first `n` responses only, each with the cursor of the one before. */
  ghost predicate Placed(k: Key, responses: seq<Response>, asked: seq<Variables>, n: nat)
    requires n <= |responses| == |asked|
  {
    && (forall r :: 0 <= r < |responses| ==> (k in responses[r].connections <==> r < n) && k in asked[r].cursors && (k in asked[r].wanted <==> r < n))
    && (n > 0 ==> asked[0].cursors[k] == None)
    && forall r :: 0 < r < n ==> asked[r].cursors[k] == responses[r - 1].connections[k].cursor
  }

  /** What one connection becomes with its part of a response. */
  function TakeOne(k: Key, c: Connection, response: Response): Result<Connection, PageError> {
    if !c.active then (if k in response.connections then Err(UnexpectedConnection) else Ok(c))
    else if k !in response.connections then Err(MissingConnection)
    else AddPage(c, response.connections[k])
  }

  /** One connection's part of a response. */
  method TakePage(k: Key, c: Connection, response: Response, ghost responses: seq<Response>, ghost asked: seq<Variables>)
    returns (r: Result<Connection, PageError>)
    requires |asked| == |responses| + 1 && Paged(k, responses, asked[..|responses|], c)
    requires k in asked[|responses|].cursors && asked[|responses|].cursors[k] == c.cursor
    requires k in asked[|responses|].wanted <==> c.active
    ensures r == TakeOne(k, c, response)
    ensures r.Ok? ==> Paged(k, responses + [response], asked, r.value)
  {
    if !c.active {
      if k in response.connections { return Err(UnexpectedConnection); }
      PagesStay(k, responses, asked, c, response);
      return Ok(c);
    }
    if k !in response.connections { return Err(MissingConnection); }
    r := AddPage(c, response.connections[k]);
    if r.Ok? { PagesGrow(k, responses, asked, c, response); }
  }

  lemma PagesStay(k: Key, responses: seq<Response>, asked: seq<Variables>, c: Connection, response: Response)
    requires |asked| == |responses| + 1 && Paged(k, responses, asked[..|responses|], c) && !c.active
    requires k !in response.connections && k in asked[|responses|].cursors && k !in asked[|responses|].wanted
    ensures Paged(k, responses + [response], asked, c)
  {
    hide Follows, Concat, UniqueIdentities;
    assert History(k, responses + [response], c.pages) == History(k, responses, c.pages);
  }

  lemma PagesGrow(k: Key, responses: seq<Response>, asked: seq<Variables>, c: Connection, response: Response)
    requires |asked| == |responses| + 1 && Paged(k, responses, asked[..|responses|], c) && c.active
    requires k in response.connections && AddPage(c, response.connections[k]).Ok?
    requires k in asked[|responses|].cursors && asked[|responses|].cursors[k] == c.cursor && k in asked[|responses|].wanted
    ensures Paged(k, responses + [response], asked, AddPage(c, response.connections[k]).value)
  {
    var history, p := History(k, responses, c.pages), response.connections[k];
    PageFollows(c, history, p);
    AddPageShape(c, p);
    LastCursor(c, history);
    PlacedGrows(k, responses, asked, c.pages, response);
    assert History(k, responses + [response], c.pages + 1) == history + [p] by { hide Follows, AddPage, Repeats; }
    hide Follows, AddPage, Placed;
  }

  lemma PlacedGrows(k: Key, responses: seq<Response>, asked: seq<Variables>, n: nat, response: Response)
    requires |asked| == |responses| + 1 && n == |responses| && Placed(k, responses, asked[..n], n)
    requires k in response.connections && k in asked[n].cursors && k in asked[n].wanted
    requires asked[n].cursors[k] == if n == 0 then None else responses[n - 1].connections[k].cursor
    ensures Placed(k, responses + [response], asked, n + 1)
  {
    forall r | 0 <= r <= n ensures asked[r] == (asked[..n] + [asked[n]])[r] {}
  }

  lemma AddPageShape(c: Connection, p: Page)
    requires AddPage(c, p).Ok?
    ensures AddPage(c, p).value.pages == c.pages + 1 && AddPage(c, p).value.active == p.hasNext
  {
  }

  lemma LastCursor(c: Connection, history: seq<Page>)
    requires Follows(c, history)
    ensures c.cursor == if |history| == 0 then None else history[|history| - 1].cursor
  {
    hide Concat, UniqueIdentities;
  }

  /** Every connection takes its part, or one that cannot gives its error. */
  ghost predicate AllTake(connections: map<Key, Connection>, response: Response, r: Result<map<Key, Connection>, PageError>)
    requires forall k: Key :: k in connections
  {
    if r.Ok? then forall k: Key :: k in r.value && TakeOne(k, connections[k], response) == Ok(r.value[k])
    else exists k: Key :: TakeOne(k, connections[k], response) == Err(r.error)
  }

  /** All three connections of one response, in turn. */
  method TakeResponse(connections: map<Key, Connection>, response: Response, ghost responses: seq<Response>, ghost asked: seq<Variables>)
    returns (r: Result<map<Key, Connection>, PageError>)
    requires forall k: Key :: k in connections
    requires |asked| == |responses| + 1 && asked[|responses|] == VariablesOf(connections)
    requires forall k: Key :: Paged(k, responses, asked[..|responses|], connections[k])
    ensures AllTake(connections, response, r)
    ensures r.Ok? ==> (forall k: Key :: k in r.value) && forall k: Key :: Paged(k, responses + [response], asked, r.value[k])
  {
    var updated: map<Key, Connection> := map[];
    assert TakenTo(0, connections, response, responses + [response], asked, updated);
    hide Paged, TakenTo, VariablesOf, TakeOne, AllTake;
    for n := 0 to |Keys|
      invariant TakenTo(n, connections, response, responses + [response], asked, updated)
    {
      AskedFor(connections, Keys[n]);
      var taken := TakePage(Keys[n], connections[Keys[n]], response, responses, asked);
      if taken.Err? {
        OneRefuses(Keys[n], connections, response, taken.error);
        return Err(taken.error);
      }
      MoreTaken(n, connections, response, responses + [response], asked, updated, taken.value);
      updated := updated[Keys[n] := taken.value];
    }
    AllTaken(connections, response, responses + [response], asked, updated);
    r := Ok(updated);
  }

  lemma OneRefuses(k: Key, connections: map<Key, Connection>, response: Response, error: PageError)
    requires (forall k: Key :: k in connections) && TakeOne(k, connections[k], response) == Err(error)
    ensures AllTake(connections, response, Err(error))
  {
  }

  /** A connection already updated for the response at hand. */
  ghost predicate Taken(k: Key, connections: map<Key, Connection>, response: Response, responses: seq<Response>, asked: seq<Variables>, updated: map<Key, Connection>)
    requires |asked| == |responses|
  {
    k in updated && k in connections && TakeOne(k, connections[k], response) == Ok(updated[k]) && Paged(k, responses, asked, updated[k])
  }

  ghost predicate TakenTo(n: nat, connections: map<Key, Connection>, response: Response, responses: seq<Response>, asked: seq<Variables>, updated: map<Key, Connection>)
    requires n <= |Keys| && |asked| == |responses|
  {
    forall m :: 0 <= m < n ==> Taken(Keys[m], connections, response, responses, asked, updated)
  }

  lemma MoreTaken(n: nat, connections: map<Key, Connection>, response: Response, responses: seq<Response>, asked: seq<Variables>,
                  updated: map<Key, Connection>, c: Connection)
    requires n < |Keys| && |asked| == |responses| && TakenTo(n, connections, response, responses, asked, updated)
    requires Keys[n] in connections && TakeOne(Keys[n], connections[Keys[n]], response) == Ok(c) && Paged(Keys[n], responses, asked, c)
    ensures TakenTo(n + 1, connections, response, responses, asked, updated[Keys[n] := c])
  {
    hide Paged, TakeOne;
    forall m | 0 <= m < n + 1 ensures Taken(Keys[m], connections, response, responses, asked, updated[Keys[n] := c]) {
      if m < n { assert Taken(Keys[m], connections, response, responses, asked, updated); }
    }
  }

  lemma AllTaken(connections: map<Key, Connection>, response: Response, responses: seq<Response>, asked: seq<Variables>, updated: map<Key, Connection>)
    requires (forall k: Key :: k in connections) && |asked| == |responses| && TakenTo(|Keys|, connections, response, responses, asked, updated)
    ensures (forall k: Key :: k in updated) && AllTake(connections, response, Ok(updated))
    ensures forall k: Key :: Paged(k, responses, asked, updated[k])
  {
    hide Paged, TakeOne;
    forall k: Key
      ensures k in updated && TakeOne(k, connections[k], response) == Ok(updated[k]) && Paged(k, responses, asked, updated[k])
    {
      var n := if k == LatestReviews then 0 else if k == ReviewRequests then 1 else 2;
      assert k == Keys[n] && Taken(Keys[n], connections, response, responses, asked, updated);
    }
  }

  lemma AskedFor(connections: map<Key, Connection>, k: Key)
    requires forall k: Key :: k in connections
    ensures k in VariablesOf(connections).cursors && VariablesOf(connections).cursors[k] == connections[k].cursor
    ensures k in VariablesOf(connections).wanted <==> connections[k].active
  {
  }

  function Report(c: Connection): Reported {
    var complete := !c.active && c.total == Some(|c.items|);
    Reported(c.items, c.pages, if c.total.Some? then c.total.value else |c.items|, complete, if complete then None else c.cursor)
  }

  /** What a snapshot says about the run that produced it. */
  ghost predicate Faithful(server: Server, s: Snapshot, responses: seq<Response>, asked: seq<Variables>, connections: map<Key, Connection>) {
    && Run(server, responses, asked, connections)
    && |s.requestIds| == |responses| && (forall r :: 0 <= r < |responses| ==> s.requestIds[r] == responses[r].requestId && responses[r].core == s.core)
    && (forall k: Key :: k in s.connections && s.connections[k] == Report(connections[k]))
  }

  function AllFresh(): map<Key, Connection> { map[LatestReviews := Fresh, ReviewRequests := Fresh, ReviewThreads := Fresh] }

  lemma AllAreFresh(k: Key)
    ensures k in AllFresh() && AllFresh()[k] == Fresh
  {
    assert k == LatestReviews || k == ReviewRequests || k == ReviewThreads;
  }

  /** The request ids and the core kept so far are those of the responses. */
  ghost predicate Recorded(responses: seq<Response>, requestIds: seq<string>, core: Option<string>) {
    && |requestIds| == |responses| && (core.Some? <==> |responses| > 0)
    && forall r :: 0 <= r < |responses| ==> requestIds[r] == responses[r].requestId && Some(responses[r].core) == core
  }

  /** The checks on a whole response. */
  function Accepted(answer: Result<Response, PageError>, requestIds: seq<string>, core: Option<string>): Result<Response, PageError> {
    if answer.Err? then answer
    else if answer.value.requestId in requestIds then Err(RequestIdReused)
    else if !answer.value.exact then Err(WrongPullRequest)
    else if core.Some? && core.value != answer.value.core then Err(PullRequestChanged)
    else answer
  }

  /** The next request fails with this error: its response is refused, or one of its connections is. */
  ghost predicate NextRefused(server: Server, current: map<Key, Connection>, requestIds: seq<string>, core: Option<string>, error: PageError)
    requires forall k: Key :: k in current
  {
    var accepted := Accepted(server(|requestIds|, VariablesOf(current)), requestIds, core);
    if accepted.Err? then error == accepted.error
    else exists k: Key :: TakeOne(k, current[k], accepted.value) == Err(error)
  }

  /** One request: the response, its checks, and the connections after it. */
  method ReadOnce(server: Server, current: map<Key, Connection>, requestIds: seq<string>, core: Option<string>,
                  ghost responses: seq<Response>, ghost asked: seq<Variables>)
    returns (r: Result<(Response, map<Key, Connection>), PageError>)
    requires Run(server, responses, asked, current) && Recorded(responses, requestIds, core)
    ensures r.Err? ==> (forall k: Key :: k in current) && NextRefused(server, current, requestIds, core, r.error)
    ensures r.Ok? ==>
              && (forall k: Key :: k in r.value.1)
              && Run(server, responses + [r.value.0], asked + [VariablesOf(current)], r.value.1)
              && Recorded(responses + [r.value.0], requestIds + [r.value.0.requestId], Some(r.value.0.core))
  {
    RunIsTotal(server, responses, asked, current);
    var variables := VariablesOf(current);
    var answer := server(|requestIds|, variables);
    if answer.Err? { return Err(answer.error); }
    var response := answer.value;
    if response.requestId in requestIds { return Err(RequestIdReused); }
    if !response.exact { return Err(WrongPullRequest); }
    if core.Some? && core.value != response.core { return Err(PullRequestChanged); }
    ghost var asked' := asked + [variables];
    assert asked'[..|responses|] == asked;
    hide Paged, VariablesOf, TakeOne;
    var taken := TakeResponse(current, response, responses, asked');
    if taken.Err? { return Err(taken.error); }
    assert forall k :: 0 <= k < |responses| ==> requestIds[k] in requestIds;
    RunGrows(server, responses, asked, current, response, variables, taken.value);
    r := Ok((response, taken.value));
  }

  predicate AnyActive(connections: map<Key, Connection>)
    requires forall k: Key :: k in connections
  {
    connections[LatestReviews].active || connections[ReviewRequests].active || connections[ReviewThreads].active
  }

  ghost predicate Reading(server: Server, responses: seq<Response>, asked: seq<Variables>, current: map<Key, Connection>,
                          requestIds: seq<string>, core: Option<string>) {
    Run(server, responses, asked, current) && Recorded(responses, requestIds, core)
  }

  function IdsOf(responses: seq<Response>): seq<string> { seq(|responses|, r requires 0 <= r < |responses| => responses[r].requestId) }

  function CoreOf(responses: seq<Response>): Option<string> { if |responses| == 0 then None else Some(responses[0].core) }

  /** Some connection was still active, and the request for its next page failed. */
  ghost predicate Stopped(server: Server, responses: seq<Response>, connections: map<Key, Connection>, error: PageError) {
    (forall k: Key :: k in connections) && AnyActive(connections) && NextRefused(server, connections, IdsOf(responses), CoreOf(responses), error)
  }

  lemma RecordedIs(responses: seq<Response>, requestIds: seq<string>, core: Option<string>)
    requires Recorded(responses, requestIds, core)
    ensures requestIds == IdsOf(responses) && core == CoreOf(responses)
  {
  }

  /** `read_pull_request`: at most `maxPages` requests. */
  method ReadPullRequest(server: Server, maxPages: nat)
    returns (r: Result<Snapshot, PageError>, ghost responses: seq<Response>, ghost asked: seq<Variables>, ghost connections: map<Key, Connection>)
    requires maxPages >= 1
    ensures |responses| <= maxPages && Run(server, responses, asked, connections)
    ensures r.Ok? ==> Faithful(server, r.value, responses, asked, connections)
    ensures r.Ok? ==> |r.value.requestIds| <= maxPages && Distinct(r.value.requestIds) && WholeIfComplete(r.value)
    ensures r.Ok? && |r.value.requestIds| < maxPages ==> forall k: Key :: k in r.value.connections && r.value.connections[k].complete
    ensures r.Err? ==> |responses| < maxPages && Stopped(server, responses, connections, r.error)
    ensures forall core, truth :: Honest(server, core, truth) && FitsWithin(truth, maxPages) ==> r.Ok? && ShowsAll(r.value, truth)
  {
    var current := AllFresh();
    var requestIds: seq<string>, core: Option<string> := [], None;
    responses, asked, connections := [], [], current;
    forall k: Key ensures k in current && current[k] == Fresh { AllAreFresh(k); }
    StartsPaged(server, current);
    hide Run, Faithful, Report;
    while |requestIds| < maxPages && AnyActive(current)
      invariant (forall k: Key :: k in current) && |requestIds| == |responses| <= maxPages && (|requestIds| > 0 || AnyActive(current))
      invariant Reading(server, responses, asked, current, requestIds, core)
      decreases maxPages - |requestIds|
    {
      hide Recorded, AnyActive, NextRefused;
      var read := ReadOnce(server, current, requestIds, core, responses, asked);
      if read.Err? {
        RecordedIs(responses, requestIds, core);
        connections := current;
        r := Err(read.error);
        HonestIsNotRefused(server, responses, asked, connections, read.error);
        return;
      }
      responses, asked := responses + [read.value.0], asked + [VariablesOf(current)];
      current, requestIds, core := read.value.1, requestIds + [read.value.0.requestId], Some(read.value.0.core);
    }
    connections := current;
    var snapshot := Summarize(server, current, requestIds, core, responses, asked);
    SnapshotIsWhole(server, snapshot, responses, asked, connections);
    HonestIsRead(server, snapshot, responses, asked, connections, maxPages);
    r := Ok(snapshot);
  }

  /** Every connection is there, and a complete one holds as many items as the server counts, no item twice. */
  ghost predicate WholeIfComplete(s: Snapshot) {
    forall k: Key :: k in s.connections && (s.connections[k].complete ==> UniqueIdentities(s.connections[k].items) && |s.connections[k].items| == s.connections[k].total)
  }

  lemma SnapshotIsWhole(server: Server, s: Snapshot, responses: seq<Response>, asked: seq<Variables>, connections: map<Key, Connection>)
    requires Faithful(server, s, responses, asked, connections)
    ensures Distinct(s.requestIds) && |s.requestIds| == |responses| && WholeIfComplete(s)
  {
    RequestIdsDistinct(server, s, responses, asked, connections);
    forall k: Key
      ensures k in s.connections && (s.connections[k].complete ==> UniqueIdentities(s.connections[k].items) && |s.connections[k].items| == s.connections[k].total)
    {
      hide Run, UniqueIdentities;
      if s.connections[k].complete { CompleteMeans(server, s, responses, asked, connections, k); }
    }
  }

  method Summarize(server: Server, current: map<Key, Connection>, requestIds: seq<string>, core: Option<string>,
                   ghost responses: seq<Response>, ghost asked: seq<Variables>)
    returns (s: Snapshot)
    requires Reading(server, responses, asked, current, requestIds, core) && |requestIds| > 0
    ensures Faithful(server, s, responses, asked, current)
    ensures forall k: Key :: k in s.connections
    ensures forall k: Key :: k in current
    ensures !AnyActive(current) ==> forall k: Key :: s.connections[k].complete
  {
    assert core.Some?;
    hide Run, Recorded, Report, Faithful, AnyActive;
    RunIsTotal(server, responses, asked, current);
    var reports := map[LatestReviews := Report(current[LatestReviews]), ReviewRequests := Report(current[ReviewRequests]),
                       ReviewThreads := Report(current[ReviewThreads])];
    s := Snapshot(core.value, reports, requestIds);
    EachIsReported(current, reports);
    SummaryIsFaithful(server, s, responses, asked, current, core);
    if !AnyActive(current) { SummaryIsComplete(server, s, responses, asked, current); }
  }

  lemma EachIsReported(current: map<Key, Connection>, reports: map<Key, Reported>)
    requires forall k: Key :: k in current
    requires reports == map[LatestReviews := Report(current[LatestReviews]), ReviewRequests := Report(current[ReviewRequests]),
                            ReviewThreads := Report(current[ReviewThreads])]
    ensures forall k: Key :: k in reports && reports[k] == Report(current[k])
  {
    hide Report;
    forall k: Key ensures k in reports && reports[k] == Report(current[k]) {
      assert k == LatestReviews || k == ReviewRequests || k == ReviewThreads;
    }
  }

  lemma RunIsTotal(server: Server, responses: seq<Response>, asked: seq<Variables>, current: map<Key, Connection>)
    requires Run(server, responses, asked, current)
    ensures forall k: Key :: k in current
  {
    hide Paged;
  }

  lemma SummaryIsFaithful(server: Server, s: Snapshot, responses: seq<Response>, asked: seq<Variables>, current: map<Key, Connection>,
                          core: Option<string>)
    requires Run(server, responses, asked, current) && Recorded(responses, s.requestIds, core) && core == Some(s.core)
    requires forall k: Key :: k in current && k in s.connections && s.connections[k] == Report(current[k])
    ensures Faithful(server, s, responses, asked, current)
  {
    hide Run, Report;
  }

  lemma SummaryIsComplete(server: Server, s: Snapshot, responses: seq<Response>, asked: seq<Variables>, current: map<Key, Connection>)
    requires Run(server, responses, asked, current) && !AnyActive(current)
    requires forall k: Key :: k in current && k in s.connections && s.connections[k] == Report(current[k])
    ensures forall k: Key :: s.connections[k].complete
  {
    InactiveIsComplete(server, responses, asked, current);
    hide Run, Report;
  }

  /** A connection that is no longer active has reported its count. */
  lemma InactiveIsComplete(server: Server, responses: seq<Response>, asked: seq<Variables>, connections: map<Key, Connection>)
    requires Run(server, responses, asked, connections)
    ensures forall k: Key :: k in connections
    ensures !AnyActive(connections) ==> forall k: Key :: Report(connections[k]).complete
  {
    forall k: Key
      ensures !AnyActive(connections) ==> Report(connections[k]).complete
    {
      assert Paged(k, responses, asked, connections[k]);
      assert k == LatestReviews || k == ReviewRequests || k == ReviewThreads;
    }
  }

  lemma StartsPaged(server: Server, connections: map<Key, Connection>)
    requires (forall k: Key :: k in connections && connections[k] == Fresh)
    ensures Run(server, [], [], connections)
  {
    forall k: Key
      ensures Paged(k, [], [], connections[k])
    {
      assert History(k, [], 0) == [];
    }
  }

  /** One more request of the run. */
  lemma RunGrows(server: Server, responses: seq<Response>, asked: seq<Variables>, before: map<Key, Connection>,
                 response: Response, variables: Variables, after: map<Key, Connection>)
    requires Run(server, responses, asked, before) && server(|responses|, variables) == Ok(response)
    requires forall r :: 0 <= r < |responses| ==> responses[r].requestId != response.requestId
    requires (forall k: Key :: k in after) && forall k: Key :: Paged(k, responses + [response], asked + [variables], after[k])
    ensures Run(server, responses + [response], asked + [variables], after)
  {
    hide Paged;
  }

  // ---------------------------------------------------------------- what complete means

  /**
    A connection reported complete holds exactly the in-order concatenation of the pages the server
    gave for it, each page asked for with the cursor of the one before, up to the first page that
    promised no more; its items are pairwise distinct and as many as the server's total.
  */
  lemma CompleteMeans(server: Server, s: Snapshot, responses: seq<Response>, asked: seq<Variables>, connections: map<Key, Connection>, k: Key)
    requires Faithful(server, s, responses, asked, connections) && k in s.connections && s.connections[k].complete
    ensures var c := s.connections[k];
            var n := c.pages;
            && 1 <= n <= |responses| && (forall r :: 0 <= r < n ==> k in responses[r].connections)
            && c.items == Concat(History(k, responses, n))
            && UniqueIdentities(c.items) && |c.items| == c.total
            && LastPage(k, responses, n, c.total) && Chained(server, k, responses, asked, n)
            && c.cursor == None
  {
    assert Paged(k, responses, asked, connections[k]);
    hide Concat, UniqueIdentities, Run;
    FollowsToTheEnd(k, responses, connections[k]);
    assert Chained(server, k, responses, asked, connections[k].pages) by { ChainedPages(server, k, responses, asked, connections); }
    hide Paged, LastPage, Chained;
  }

  /**
    A connection reported incomplete has been read with every request so far, each page promising more: it
    holds their items in order, with the last total and the cursor to go on from.
  */
  lemma IncompleteMeans(server: Server, s: Snapshot, responses: seq<Response>, asked: seq<Variables>, connections: map<Key, Connection>, k: Key)
    requires Faithful(server, s, responses, asked, connections) && k in s.connections && !s.connections[k].complete
    ensures var c, n := s.connections[k], |responses|;
            && c.pages == n && (forall r :: 0 <= r < n ==> k in responses[r].connections && responses[r].connections[k].hasNext)
            && c.items == Concat(History(k, responses, n)) && Chained(server, k, responses, asked, n)
            && c.cursor == (if n == 0 then None else responses[n - 1].connections[k].cursor)
            && (n > 0 ==> c.total == responses[n - 1].connections[k].total)
  {
    hide Concat, Chained, Paged, Report;
    RunIsPaged(server, responses, asked, connections, k);
    ChainedPages(server, k, responses, asked, connections);
    IncompletePages(k, responses, asked, connections[k]);
  }

  lemma RunIsPaged(server: Server, responses: seq<Response>, asked: seq<Variables>, connections: map<Key, Connection>, k: Key)
    requires Run(server, responses, asked, connections)
    ensures |asked| == |responses| && k in connections && Paged(k, responses, asked, connections[k])
  {
    hide Paged;
  }

  lemma IncompletePages(k: Key, responses: seq<Response>, asked: seq<Variables>, c: Connection)
    requires |asked| == |responses| && Paged(k, responses, asked, c) && !Report(c).complete
    ensures var n := |responses|;
            && c.pages == n && (forall r :: 0 <= r < n ==> k in responses[r].connections && responses[r].connections[k].hasNext)
            && Report(c).pages == n && Report(c).items == Concat(History(k, responses, n))
            && Report(c).cursor == (if n == 0 then None else responses[n - 1].connections[k].cursor)
            && (n > 0 ==> Report(c).total == responses[n - 1].connections[k].total)
  {
    hide Concat, Follows;
    var h := History(k, responses, c.pages);
    FollowsOn(c, h);
    assert forall r :: 0 <= r < |h| ==> h[r] == responses[r].connections[k];
    forall r | 0 <= r < |responses| ensures k in responses[r].connections && responses[r].connections[k].hasNext { assert h[r].hasNext; }
  }

  /** A connection whose pages do not add up to its total is still active. */
  lemma FollowsOn(c: Connection, history: seq<Page>)
    requires Follows(c, history) && !Report(c).complete
    ensures c.active && (forall r :: 0 <= r < |history| ==> history[r].hasNext) && c.items == Concat(history) && c.pages == |history|
    ensures c.cursor == if |history| == 0 then None else history[|history| - 1].cursor
    ensures |history| > 0 ==> c.total == Some(history[|history| - 1].total)
  {
    hide Concat, UniqueIdentities, CursorsOf;
  }

  /** The pages agree on the total, and exactly the last one promises no more. */
  ghost predicate LastPage(k: Key, responses: seq<Response>, n: nat, total: nat)
    requires n <= |responses| && forall r :: 0 <= r < n ==> k in responses[r].connections
  {
    forall r :: 0 <= r < n ==> responses[r].connections[k].total == total && (responses[r].connections[k].hasNext <==> r < n - 1)
  }

  /** Each response answers the request made, and each page was asked for with the cursor of the one before. */
  ghost predicate Chained(server: Server, k: Key, responses: seq<Response>, asked: seq<Variables>, n: nat)
    requires n <= |responses| == |asked| && forall r :: 0 <= r < n ==> k in responses[r].connections
  {
    forall r :: 0 <= r < n ==>
      && server(r, asked[r]) == Ok(responses[r]) && k in asked[r].cursors
      && asked[r].cursors[k] == (if r == 0 then None else responses[r - 1].connections[k].cursor)
  }

  lemma FollowsToTheEnd(k: Key, responses: seq<Response>, c: Connection)
    requires c.pages <= |responses| && (forall r :: 0 <= r < c.pages ==> k in responses[r].connections)
    requires Follows(c, History(k, responses, c.pages)) && !c.active
    ensures c.pages >= 1 && c.total.Some? && c.total.value == |c.items| && LastPage(k, responses, c.pages, c.total.value)
    ensures c.items == Concat(History(k, responses, c.pages)) && UniqueIdentities(c.items)
  {
    hide Concat, UniqueIdentities;
    var history := History(k, responses, c.pages);
    assert forall r :: 0 <= r < c.pages ==> responses[r].connections[k] == history[r];
  }

  lemma ChainedPages(server: Server, k: Key, responses: seq<Response>, asked: seq<Variables>, connections: map<Key, Connection>)
    requires Run(server, responses, asked, connections)
    ensures k in connections && connections[k].pages <= |responses| && (forall r :: 0 <= r < connections[k].pages ==> k in responses[r].connections)
    ensures Chained(server, k, responses, asked, connections[k].pages)
  {
    hide Follows;
    assert Paged(k, responses, asked, connections[k]);
  }

  /** Every request of a snapshot has its own id. */
  lemma RequestIdsDistinct(server: Server, s: Snapshot, responses: seq<Response>, asked: seq<Variables>, connections: map<Key, Connection>)
    requires Faithful(server, s, responses, asked, connections)
    ensures Distinct(s.requestIds)
  {
    hide Paged;
  }

  // ---------------------------------------------------------------- honest servers are read to the end

  /** The pages of one connection as a server that does not change holds them. */
  ghost predicate Sound(pages: seq<Page>) {
    && |pages| > 0 && UniqueIdentities(Concat(pages))
    && (forall k :: 0 <= k < |pages| ==> WellFormed(pages[k]) && pages[k].total == |Concat(pages)| && (pages[k].hasNext <==> k < |pages| - 1))
    && forall k, m :: 0 <= k < m < |pages| - 1 ==> pages[k].cursor != pages[m].cursor
  }

  /** The server answers every request with new ids, the same core, and exactly the pages asked for. */
  ghost predicate Honest(server: Server, core: string, truth: map<Key, seq<Page>>) {
    && (forall k: Key :: k in truth && Sound(truth[k]))
    && (forall n: nat, v: Variables :: server(n, v).Ok? && server(n, v).value.exact && server(n, v).value.core == core)
    && (forall n: nat, m: nat, v: Variables, w: Variables :: n != m ==> server(n, v).value.requestId != server(m, w).value.requestId)
    && forall n: nat, v: Variables, k: Key :: GivesPage(server(n, v).value, v, k, truth[k])
  }

  /** The first page without a cursor, otherwise the page after the one the cursor came with. */
  ghost predicate GivesPage(response: Response, v: Variables, k: Key, pages: seq<Page>) {
    && (k in response.connections <==> k in v.wanted)
    && forall i :: AsksFor(v, k, pages, i) ==> response.connections[k] == pages[i]
  }

  ghost predicate AsksFor(v: Variables, k: Key, pages: seq<Page>, i: int) {
    0 <= i < |pages| && k in v.wanted && k in v.cursors && v.cursors[k] == if i == 0 then None else pages[i - 1].cursor
  }

  /** Page `r` of a connection was asked for with the cursor of the page before, which promised it. */
  lemma AskedWith(k: Key, responses: seq<Response>, asked: seq<Variables>, c: Connection, r: nat)
    requires |asked| == |responses| && Paged(k, responses, asked, c) && r < c.pages
    ensures k in responses[r].connections && k in asked[r].cursors && k in asked[r].wanted
    ensures r > 0 ==> k in responses[r - 1].connections && responses[r - 1].connections[k].hasNext
    ensures asked[r].cursors[k] == if r == 0 then None else responses[r - 1].connections[k].cursor
  {
    hide Concat, UniqueIdentities, CursorsOf;
    if r > 0 { assert History(k, responses, c.pages)[r - 1].hasNext; }
  }

  /** Page `r` of a run against an honest server is page `r` of the connection. */
  lemma {:induction false} ReadsPage(server: Server, core: string, truth: map<Key, seq<Page>>, responses: seq<Response>,
                                     asked: seq<Variables>, k: Key, c: Connection, r: nat)
    requires Honest(server, core, truth) && |asked| == |responses| && Paged(k, responses, asked, c) && r < c.pages
    requires forall r :: 0 <= r < |responses| ==> server(r, asked[r]) == Ok(responses[r])
    ensures k in responses[r].connections && k in truth && r < |truth[k]| && responses[r].connections[k] == truth[k][r]
    decreases r
  {
    AskedWith(k, responses, asked, c, r);
    if r > 0 { ReadsPage(server, core, truth, responses, asked, k, c, r - 1); }
    Answers(server, core, truth, r, asked[r], k);
    hide Honest, Paged, Sound, GivesPage;
    NextPageGiven(responses[r], asked[r], k, truth[k], r);
  }

  /** A connection of a run against an honest server has read the first of its pages. */
  lemma ReadsThePages(server: Server, core: string, truth: map<Key, seq<Page>>, responses: seq<Response>,
                      asked: seq<Variables>, k: Key, c: Connection)
    requires Honest(server, core, truth) && |asked| == |responses| && Paged(k, responses, asked, c)
    requires forall r :: 0 <= r < |responses| ==> server(r, asked[r]) == Ok(responses[r])
    ensures (forall r :: 0 <= r < c.pages ==> k in responses[r].connections) && k in truth && c.pages <= |truth[k]|
    ensures History(k, responses, c.pages) == truth[k][..c.pages]
  {
    Answers(server, core, truth, 0, Variables(map[], {}), k);
    forall r | 0 <= r < c.pages
      ensures k in responses[r].connections && r < |truth[k]| && responses[r].connections[k] == truth[k][r]
    {
      ReadsPage(server, core, truth, responses, asked, k, c, r);
    }
    assert c.pages > 0 ==> c.pages - 1 < |truth[k]|;
    hide Honest, Paged, Sound;
  }

  lemma NextPageGiven(response: Response, v: Variables, k: Key, pages: seq<Page>, n: nat)
    requires Sound(pages) && GivesPage(response, v, k, pages) && k in v.wanted && k in v.cursors
    requires n > 0 ==> n - 1 < |pages| && pages[n - 1].hasNext
    requires v.cursors[k] == if n == 0 then None else pages[n - 1].cursor
    ensures n < |pages| && k in response.connections && response.connections[k] == pages[n]
  {
    assert n < |pages| by { hide GivesPage, Concat, UniqueIdentities; }
    hide Sound;
    assert AsksFor(v, k, pages, n);
  }

  lemma Answers(server: Server, core: string, truth: map<Key, seq<Page>>, n: nat, v: Variables, k: Key)
    requires Honest(server, core, truth)
    ensures k in truth && Sound(truth[k]) && server(n, v).Ok? && GivesPage(server(n, v).value, v, k, truth[k])
  {
    hide Sound, GivesPage;
  }

  /** The next page of an honest connection is never refused. */
  lemma NextPageFits(c: Connection, pages: seq<Page>, n: nat)
    requires Sound(pages) && n < |pages| && Follows(c, pages[..n])
    ensures AddPage(c, pages[n]).Ok?
  {
    assert pages[..n + 1][..n] == pages[..n];
    ConcatPrefix(pages, n + 1);
    var p, all := pages[n], Concat(pages);
    assert c.items + p.items == all[..|c.items| + |p.items|];
    NothingRepeats(c.items, p.items, all);
    assert n == |pages| - 1 ==> pages[..n + 1] == pages;
    assert n > 0 ==> c.total == Some(pages[..n][0].total);
    hide Repeats;
  }

  lemma {:induction false} ConcatPrefix(pages: seq<Page>, n: nat)
    requires n <= |pages|
    ensures |Concat(pages[..n])| <= |Concat(pages)| && Concat(pages[..n]) == Concat(pages)[..|Concat(pages[..n])|]
    decreases |pages|
  {
    if n == |pages| {
      assert pages[..n] == pages;
    } else {
      var front := pages[..|pages| - 1];
      ConcatPrefix(front, n);
      assert front[..n] == pages[..n];
    }
  }

  lemma NothingRepeats(items: seq<Item>, more: seq<Item>, all: seq<Item>)
    requires UniqueIdentities(all) && |items| + |more| <= |all| && items + more == all[..|items| + |more|]
    ensures !Repeats(items, more)
  {
    assert forall k {:trigger items[k]} :: 0 <= k < |items| ==> items[k] == (items + more)[k] == all[k];
    assert forall k {:trigger more[k]} :: 0 <= k < |more| ==> more[k] == (items + more)[|items| + k] == all[|items| + k];
  }

  /** Against an honest server, every connection holds the first of its pages, and is done exactly when it holds all. */
  lemma HonestConnection(server: Server, core: string, truth: map<Key, seq<Page>>, responses: seq<Response>, asked: seq<Variables>,
                         connections: map<Key, Connection>, k: Key)
    requires Honest(server, core, truth) && Run(server, responses, asked, connections)
    ensures k in truth && k in connections && Sound(truth[k]) && connections[k].pages <= |truth[k]|
    ensures Follows(connections[k], truth[k][..connections[k].pages])
    ensures connections[k].active <==> connections[k].pages < |truth[k]|
  {
    var c := connections[k];
    assert Paged(k, responses, asked, c);
    ReadsThePages(server, core, truth, responses, asked, k, c);
    Answers(server, core, truth, 0, VariablesOf(connections), k);
    hide Honest, Run, Concat, UniqueIdentities, CursorsOf;
    var n := c.pages;
    assert n > 0 ==> truth[k][..n][n - 1] == truth[k][n - 1];
  }

  /** An honest server is never the reason to stop. */
  lemma HonestNeverStops(server: Server, core: string, truth: map<Key, seq<Page>>, responses: seq<Response>, asked: seq<Variables>,
                         connections: map<Key, Connection>, error: PageError)
    requires Honest(server, core, truth) && Run(server, responses, asked, connections)
    ensures !Stopped(server, responses, connections, error)
  {
    var v, n := VariablesOf(connections), |responses|;
    RunIsTotal(server, responses, asked, connections);
    AnswerIsAccepted(server, core, truth, responses, asked, connections, v);
    forall k: Key ensures TakeOne(k, connections[k], server(n, v).value).Ok? {
      hide VariablesOf, Run, Honest, Sound, GivesPage, Follows, AddPage;
      HonestConnection(server, core, truth, responses, asked, connections, k);
      Answers(server, core, truth, n, v, k);
      AskedFor(connections, k);
      TakesItsPage(connections[k], truth[k], server(n, v).value, v, k);
    }
  }

  lemma TakesItsPage(c: Connection, pages: seq<Page>, response: Response, v: Variables, k: Key)
    requires Sound(pages) && c.pages <= |pages| && Follows(c, pages[..c.pages]) && (c.active <==> c.pages < |pages|)
    requires GivesPage(response, v, k, pages) && k in v.cursors && v.cursors[k] == c.cursor && (k in v.wanted <==> c.active)
    ensures TakeOne(k, c, response).Ok?
  {
    if c.active {
      NextPageFits(c, pages, c.pages);
      LastCursor(c, pages[..c.pages]);
      hide Sound, Follows, AddPage;
      assert c.cursor == if c.pages == 0 then None else pages[c.pages - 1].cursor;
      assert AsksFor(v, k, pages, c.pages);
    }
  }

  lemma AnswerIsAccepted(server: Server, core: string, truth: map<Key, seq<Page>>, responses: seq<Response>, asked: seq<Variables>,
                         connections: map<Key, Connection>, v: Variables)
    requires Honest(server, core, truth) && Run(server, responses, asked, connections)
    ensures Accepted(server(|responses|, v), IdsOf(responses), CoreOf(responses)) == server(|responses|, v) && server(|responses|, v).Ok?
  {
    hide Paged, Sound, GivesPage;
    var n := |responses|;
    forall r | 0 <= r < n ensures responses[r].requestId != server(n, v).value.requestId && responses[r].core == core {
      assert server(r, asked[r]) == Ok(responses[r]);
    }
  }

  /** What a snapshot of an honest server shows: the first pages of every connection, complete exactly when all. */
  lemma HonestSnapshot(server: Server, core: string, truth: map<Key, seq<Page>>, s: Snapshot, responses: seq<Response>,
                       asked: seq<Variables>, connections: map<Key, Connection>, k: Key)
    requires Honest(server, core, truth) && Faithful(server, s, responses, asked, connections)
    ensures k in s.connections && k in truth && s.connections[k].pages <= |truth[k]|
    ensures s.connections[k].items == Concat(truth[k][..s.connections[k].pages])
    ensures s.connections[k].complete <==> s.connections[k].pages == |truth[k]|
  {
    HonestConnection(server, core, truth, responses, asked, connections, k);
    hide Honest, Run, Concat, UniqueIdentities, CursorsOf;
  }

  ghost predicate FitsWithin(truth: map<Key, seq<Page>>, maxPages: nat) { forall k: Key :: k in truth && |truth[k]| <= maxPages }

  /** Every connection complete, with all its pages in order. */
  ghost predicate ShowsAll(s: Snapshot, truth: map<Key, seq<Page>>) {
    forall k: Key :: k in s.connections && k in truth && s.connections[k].complete && s.connections[k].items == Concat(truth[k])
  }

  lemma HonestIsNotRefused(server: Server, responses: seq<Response>, asked: seq<Variables>, connections: map<Key, Connection>, error: PageError)
    requires Run(server, responses, asked, connections) && Stopped(server, responses, connections, error)
    ensures forall core, truth :: !Honest(server, core, truth)
  {
    hide Run, Stopped, Honest;
    forall core, truth ensures !Honest(server, core, truth) {
      if Honest(server, core, truth) { HonestNeverStops(server, core, truth, responses, asked, connections, error); }
    }
  }

  /** With room for all its pages, an honest server is read to the end. */
  lemma HonestIsRead(server: Server, s: Snapshot, responses: seq<Response>, asked: seq<Variables>, connections: map<Key, Connection>, maxPages: nat)
    requires Faithful(server, s, responses, asked, connections)
    requires |responses| < maxPages ==> forall k: Key :: k in s.connections && s.connections[k].complete
    ensures forall core, truth :: Honest(server, core, truth) && FitsWithin(truth, maxPages) ==> ShowsAll(s, truth)
  {
    hide Faithful, Honest, Concat;
    forall core, truth | Honest(server, core, truth) && FitsWithin(truth, maxPages) ensures ShowsAll(s, truth) {
      forall k: Key
        ensures k in s.connections && k in truth && s.connections[k].complete && s.connections[k].items == Concat(truth[k])
      {
        HonestShows(server, core, truth, s, responses, asked, connections, k, maxPages);
      }
    }
  }

  lemma HonestShows(server: Server, core: string, truth: map<Key, seq<Page>>, s: Snapshot, responses: seq<Response>, asked: seq<Variables>,
                    connections: map<Key, Connection>, k: Key, maxPages: nat)
    requires Honest(server, core, truth) && Faithful(server, s, responses, asked, connections)
    requires k in truth && |truth[k]| <= maxPages
    requires |responses| < maxPages ==> k in s.connections && s.connections[k].complete
    ensures k in s.connections && s.connections[k].complete && s.connections[k].items == Concat(truth[k])
  {
    hide Faithful, Honest, Concat;
    HonestSnapshot(server, core, truth, s, responses, asked, connections, k);
    if |responses| >= maxPages { HonestIsDone(server, core, truth, s, responses, asked, connections, k, maxPages); }
    assert truth[k][..|truth[k]|] == truth[k];
  }

  lemma HonestIsDone(server: Server, core: string, truth: map<Key, seq<Page>>, s: Snapshot, responses: seq<Response>, asked: seq<Variables>,
                     connections: map<Key, Connection>, k: Key, maxPages: nat)
    requires Honest(server, core, truth) && Faithful(server, s, responses, asked, connections)
    requires k in truth && |truth[k]| <= maxPages <= |responses|
    ensures k in s.connections && s.connections[k].complete
  {
    HonestSnapshot(server, core, truth, s, responses, asked, connections, k);
    HonestConnection(server, core, truth, responses, asked, connections, k);
    assert Paged(k, responses, asked, connections[k]);
    hide Honest, Placed, Follows;
  }
}
