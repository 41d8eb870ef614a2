/** `IIIFDiscoveryService`: reads the IIIF Change Discovery API 1.0 activity stream (an
    OrderedCollection whose `first` page links on through `next`) and collects the manifest ids
    of its `Update` activities. The network is given as data: for each URL, the outcomes of
    the successive `fetch` calls one `fetchWithRetry` makes to it. */
module Discovery {
  import opened Common
  import opened Types

  /** What `fetch` resolves to: a status, the body as text, and what `response.json()` makes
      of the body (a value, or the message of the `SyntaxError` it throws). */
  datatype Response<D> = Response(status: nat, text: string, body: Result<D>)

  /** One call of `fetch`: it rejects with `message`, or a response arrives. */
  datatype Attempt<D> = Transport(message: string) | Answer(response: Response<D>)

  /** The responses of a server, per URL: the outcomes of the calls one `fetchWithRetry` makes
      to it (the first attempt, then the retries), in order. A URL fetched again is answered
      the same way again; a server whose answers change between visits is not modelled. */
  type Server<D> = map<string, seq<Attempt<D>>>

  const ApiEndpoint := "https://madoc.nlw.digtest.co.uk/s/tours-in-wales/madoc/api/activity/curated-project-manifests/stream/mini-illustrated-tours-in-wales/changes"

  /** `retries: 3`: one attempt and up to three more. */
  const Retries := 3
  const MaxAttempts := Retries + 1

  /** What a call to a URL the server does not answer rejects with. */
  const Unreachable := "fetch failed"

  const HttpErrorPrefix := "HTTP error! status: "
  const HttpErrorMiddle := ", message: "
  const InvalidCollection := "Invalid collection: missing first page URL"
  const InvalidPage := "Invalid page structure: missing or invalid orderedItems"
  const RevisitedPage := "Activity stream revisits page: "

  /** `response.ok`. */
  predicate IsOk<D>(a: Attempt<D>) {
    a.Answer? && 200 <= a.response.status <= 299
  }

  /** The outcome of the `k`-th call (from 0). */
  function AttemptAt<D>(attempts: seq<Attempt<D>>, k: nat): Attempt<D> {
    if k < |attempts| then attempts[k] else Transport(Unreachable)
  }

  /** The calls a server makes to one URL. */
  function AttemptsFor<D>(server: Server<D>, url: string): seq<Attempt<D>> {
    if url in server then server[url] else []
  }

  /** The message of the error a failed attempt throws. */
  function AttemptError<D>(a: Attempt<D>): (e: string)
    requires !IsOk(a)
    ensures a.Transport? ==> e == a.message
    ensures a.Answer? ==> e == HttpErrorPrefix + NatToString(a.response.status) + HttpErrorMiddle + a.response.text
  {
    if a.Transport? then a.message
    else HttpErrorPrefix + NatToString(a.response.status) + HttpErrorMiddle + a.response.text
  }

  /** `pRetry` from attempt `k` on: the first ok response wins; after the last attempt the
      last error propagates (see `MainError` for the releases that throw another one). */
  function RetryFrom<D>(attempts: seq<Attempt<D>>, k: nat): Result<Response<D>>
    requires k < MaxAttempts
    decreases MaxAttempts - k
  {
    var a := AttemptAt(attempts, k);
    if IsOk(a) then Success(a.response)
    else if k == MaxAttempts - 1 then Failure(AttemptError(a))
    else RetryFrom(attempts, k + 1)
  }

  /** `fetchWithRetry`, as a function of the attempts' outcomes. */
  function Retry<D>(attempts: seq<Attempt<D>>): Result<Response<D>> {
    RetryFrom(attempts, 0)
  }

  /** From attempt `k` on, the result is the first ok attempt at or after `k`, or the error of
      the last attempt when none of them is ok. */
  lemma {:induction false} RetryFromSpec<D>(attempts: seq<Attempt<D>>, k: nat)
    requires k < MaxAttempts
    ensures var r := RetryFrom(attempts, k);
      && (r.Success? <==> exists j :: k <= j < MaxAttempts && IsOk(AttemptAt(attempts, j)))
      && (r.Success? ==> exists j :: (k <= j < MaxAttempts && IsOk(AttemptAt(attempts, j))
            && r.value == AttemptAt(attempts, j).response
            && forall i :: k <= i < j ==> !IsOk(AttemptAt(attempts, i))))
      && (r.Failure? ==> r.error == AttemptError(AttemptAt(attempts, MaxAttempts - 1)))
    decreases MaxAttempts - k
  {
    if !IsOk(AttemptAt(attempts, k)) && k < MaxAttempts - 1 {
      RetryFromSpec(attempts, k + 1);
      var r := RetryFrom(attempts, k);
      if r.Success? {
        var j :| k + 1 <= j < MaxAttempts && IsOk(AttemptAt(attempts, j))
          && r.value == AttemptAt(attempts, j).response
          && forall i :: k + 1 <= i < j ==> !IsOk(AttemptAt(attempts, i));
        assert forall i :: k <= i < j ==> !IsOk(AttemptAt(attempts, i));
      }
    }
  }

  /** `fetchWithRetry` makes at most 1 + 3 attempts: it succeeds exactly when one of them is
      ok, with the first ok response, and otherwise fails with the fourth attempt's error. */
  lemma RetrySpec<D>(attempts: seq<Attempt<D>>)
    ensures var r := Retry(attempts);
      && (r.Success? <==> exists j :: 0 <= j < MaxAttempts && IsOk(AttemptAt(attempts, j)))
      && (r.Success? ==> exists j :: (0 <= j < MaxAttempts && IsOk(AttemptAt(attempts, j))
            && r.value == AttemptAt(attempts, j).response
            && forall i :: 0 <= i < j ==> !IsOk(AttemptAt(attempts, i))))
      && (r.Failure? ==> r.error == AttemptError(AttemptAt(attempts, MaxAttempts - 1)))
  {
    RetryFromSpec(attempts, 0);
  }

  /** Attempts past the fourth are never made, so they cannot change the outcome. */
  lemma {:induction false} RetryIgnoresLaterAttempts<D>(attempts: seq<Attempt<D>>, more: seq<Attempt<D>>)
    requires |attempts| >= MaxAttempts
    ensures Retry(attempts + more) == Retry(attempts)
  {
    forall k | 0 <= k < MaxAttempts ensures AttemptAt(attempts + more, k) == AttemptAt(attempts, k) {
    }
    assert RetryFrom(attempts + more, 3) == RetryFrom(attempts, 3);
    assert RetryFrom(attempts + more, 2) == RetryFrom(attempts, 2);
    assert RetryFrom(attempts + more, 1) == RetryFrom(attempts, 1);
  }

  // Which error `pRetry` throws once every attempt has failed depends on its release: the
  // model throws the last attempt's (`RetryFrom`), while the releases built on the `retry`
  // package throw `operation.mainError()`, defined below to show where the two differ.

  /** How often `m` occurs in `messages`. */
  function Occurrences(messages: seq<string>, m: string): nat {
    multiset(messages)[m]
  }

  /** `mainError()` of the `retry` package, on the messages of the failed attempts in order: a
      message whose running count reaches the largest count so far becomes the main one. */
  function MainError(messages: seq<string>): string
    requires messages != []
    decreases |messages|
  {
    var n := |messages|;
    var last := messages[n - 1];
    if n == 1 then last
    else
      var previous := MainError(messages[..n - 1]);
      if Occurrences(messages, last) >= Occurrences(messages[..n - 1], previous) then last else previous
  }

  /** The main error is one of the messages, and no message occurs more often. */
  lemma {:induction false} MainErrorIsMostFrequent(messages: seq<string>)
    requires messages != []
    ensures MainError(messages) in messages
    ensures forall m :: Occurrences(messages, m) <= Occurrences(messages, MainError(messages))
    decreases |messages|
  {
    var n := |messages|;
    if n > 1 {
      var prefix := messages[..n - 1];
      var last := messages[n - 1];
      assert messages == prefix + [last];
      assert multiset(messages) == multiset(prefix) + multiset{last};
      MainErrorIsMostFrequent(prefix);
      var previous := MainError(prefix);
      forall m ensures Occurrences(messages, m) <= Occurrences(messages, MainError(messages)) {
        assert Occurrences(prefix, m) <= Occurrences(prefix, previous);
        if Occurrences(messages, last) < Occurrences(prefix, previous) {
          assert previous != last;
        }
      }
    }
  }

  /** When the last message is among the most frequent, the main error is the last one. */
  lemma LastIsMainWhenMostFrequent(messages: seq<string>)
    requires messages != []
    requires forall m :: Occurrences(messages, m) <= Occurrences(messages, messages[|messages| - 1])
    ensures MainError(messages) == messages[|messages| - 1]
  {
    var n := |messages|;
    if n > 1 {
      var prefix := messages[..n - 1];
      assert messages == prefix + [messages[n - 1]];
      assert multiset(messages) == multiset(prefix) + multiset{messages[n - 1]};
      assert Occurrences(prefix, MainError(prefix)) <= Occurrences(messages, MainError(prefix));
    }
  }

  /** The messages of the four failed attempts of a `fetchWithRetry`. */
  function FailureMessages<D>(attempts: seq<Attempt<D>>): (r: seq<string>)
    requires forall k :: 0 <= k < MaxAttempts ==> !IsOk(AttemptAt(attempts, k))
    ensures |r| == MaxAttempts && forall k :: 0 <= k < MaxAttempts ==> r[k] == AttemptError(AttemptAt(attempts, k))
  {
    seq(MaxAttempts, k requires 0 <= k < MaxAttempts => AttemptError(AttemptAt(attempts, k)))
  }

  /** The two readings of `pRetry` throw the same error whenever the last attempt's message
      is among the most frequent ones, in particular when all four attempts fail alike. */
  lemma RetryErrorIsMainWhenLastIsMostFrequent<D>(attempts: seq<Attempt<D>>)
    requires Retry(attempts).Failure?
    ensures forall k :: 0 <= k < MaxAttempts ==> !IsOk(AttemptAt(attempts, k))
    ensures (forall m :: Occurrences(FailureMessages(attempts), m) <= Occurrences(FailureMessages(attempts), FailureMessages(attempts)[MaxAttempts - 1]))
            ==> MainError(FailureMessages(attempts)) == Retry(attempts).error
  {
    RetrySpec(attempts);
    var messages := FailureMessages(attempts);
    if forall m :: Occurrences(messages, m) <= Occurrences(messages, messages[MaxAttempts - 1]) {
      LastIsMainWhenMostFrequent(messages);
    }
  }

  /** Otherwise they differ: two failures with one message, then two others, make the
      `retry`-based releases throw the repeated message and the model the last one. */
  lemma MainErrorCanDiffer()
    ensures MainError(["x", "x", Unreachable, "y"]) == "x"
  {
    var messages := ["x", "x", Unreachable, "y"];
    assert messages[..3] == ["x", "x", Unreachable];
    assert messages[..3][..2] == ["x", "x"];
    assert messages[..3][..2][..1] == ["x"];
    assert Unreachable != "x" && "y" != "x" && "y" != Unreachable by {
      assert Unreachable[0] == 'f';
    }
    assert MainError(["x", "x"]) == "x";
    assert Occurrences(messages[..3], Unreachable) == 1;
    assert MainError(messages[..3]) == "x";
    assert Occurrences(messages, "y") == 1;
  }

  /** A URL the server does not answer fails after every attempt. */
  lemma NoAttemptsFail<D>(server: Server<D>, url: string)
    requires url !in server
    ensures Retry(AttemptsFor(server, url)) == Failure(Unreachable)
  {
  }

  /** `fetchWithRetry(url)`: `made` is the number of calls of `fetch`. */
  method FetchWithRetry<D>(attempts: seq<Attempt<D>>) returns (r: Result<Response<D>>, made: nat)
    ensures r == Retry(attempts)
    ensures 1 <= made <= MaxAttempts
    ensures r.Success? <==> IsOk(AttemptAt(attempts, made - 1))
    ensures forall i :: 0 <= i < made - 1 ==> !IsOk(AttemptAt(attempts, i))
  {
    var a := AttemptAt(attempts, 0);
    made := 1;
    while !IsOk(a) && made < MaxAttempts
      invariant 1 <= made <= MaxAttempts
      invariant a == AttemptAt(attempts, made - 1)
      invariant RetryFrom(attempts, made - 1) == Retry(attempts)
      invariant forall i :: 0 <= i < made - 1 ==> !IsOk(AttemptAt(attempts, i))
      decreases MaxAttempts - made
    {
      a := AttemptAt(attempts, made);
      made := made + 1;
    }
    if IsOk(a) {
      r := Success(a.response);
    } else {
      r := Failure(AttemptError(a));
    }
  }

  /** `fetchCollectionPage`: fetch with retries, parse, and insist on an `orderedItems` array. */
  function PageResult(attempts: seq<Attempt<Page>>): (r: Result<Page>)
    ensures r.Success? ==> r.value.orderedItems.Some?
    ensures r.Success? <==> Retry(attempts).Success? && Retry(attempts).value.body.Success?
                            && Retry(attempts).value.body.value.orderedItems.Some?
    ensures r.Success? ==> r.value == Retry(attempts).value.body.value
    ensures (Retry(attempts).Success? && Retry(attempts).value.body.Success?
             && Retry(attempts).value.body.value.orderedItems.None?) ==> r == Failure(InvalidPage)
  {
    match Retry(attempts)
    case Failure(e) => Failure(e)
    case Success(response) =>
      match response.body
      case Failure(e) => Failure(e)
      case Success(page) => if page.orderedItems.None? then Failure(InvalidPage) else Success(page)
  }

  method FetchCollectionPage(attempts: seq<Attempt<Page>>) returns (r: Result<Page>)
    ensures r == PageResult(attempts)
  {
    var response, _ := FetchWithRetry(attempts);
    if response.Failure? {
      return Failure(response.error);
    }
    var data := response.value.body;
    if data.Failure? {
      return Failure(data.error);
    }
    if data.value.orderedItems.None? {
      return Failure(InvalidPage);
    }
    r := Success(data.value);
  }

  /** A page that is served has a server entry. */
  lemma ServedPageIsKnown(pages: Server<Page>, url: string)
    requires PageResult(AttemptsFor(pages, url)).Success?
    ensures url in pages
  {
    if url !in pages {
      NoAttemptsFail(pages, url);
    }
  }

  /** `.filter(item => item.type === 'Update').map(item => item.object.id)`. */
  function UpdateIds(items: seq<Activity>): (r: seq<string>)
    ensures |r| <= |items|
  {
    if items == [] then []
    else (if items[0].activityType == "Update" then [items[0].objectId] else []) + UpdateIds(items[1..])
  }

  /** An id is collected exactly when some `Update` item carries it; other types add nothing. */
  lemma {:induction false} UpdateIdsMembership(items: seq<Activity>, id: string)
    ensures id in UpdateIds(items) <==> exists i :: 0 <= i < |items| && items[i].activityType == "Update" && items[i].objectId == id
  {
    if items != [] {
      UpdateIdsMembership(items[1..], id);
      if id in UpdateIds(items[1..]) {
        var i :| 0 <= i < |items[1..]| && items[1..][i].activityType == "Update" && items[1..][i].objectId == id;
        assert items[i + 1] == items[1..][i];
      }
      if exists i :: 0 <= i < |items| && items[i].activityType == "Update" && items[i].objectId == id {
        var i :| 0 <= i < |items| && items[i].activityType == "Update" && items[i].objectId == id;
        if i > 0 {
          assert items[1..][i - 1] == items[i];
        }
      }
    }
  }

  /** Ids keep the order of their items. */
  lemma {:induction false} UpdateIdsAppend(a: seq<Activity>, b: seq<Activity>)
    ensures UpdateIds(a + b) == UpdateIds(a) + UpdateIds(b)
  {
    if a == [] {
      assert a + b == b;
    } else {
      assert (a + b)[1..] == a[1..] + b;
      UpdateIdsAppend(a[1..], b);
    }
  }

  /** `page.next?.id || ''`. */
  function NextUrl(page: Page): (u: string)
    ensures u == "" <==> page.nextId.None? || page.nextId.value == ""
  {
    if page.nextId.Some? then page.nextId.value else ""
  }

  /** `prefix` followed by a successful result, or the failure unchanged. */
  function Prepend(prefix: seq<string>, r: Result<seq<string>>): Result<seq<string>> {
    match r
    case Failure(e) => Failure(e)
    case Success(rest) => Success(prefix + rest)
  }

  /** The page loop from `url` on, never fetching a page in `visited` twice: a revisit is
      reported as an error instead of looping for ever. */
  function Walk(pages: Server<Page>, url: string, visited: set<string>): Result<seq<string>>
    requires url != ""
    decreases |pages.Keys - visited|
  {
    if url in visited then Failure(RevisitedPage + url)
    else match PageResult(AttemptsFor(pages, url))
      case Failure(e) => Failure(e)
      case Success(page) =>
        var ids := UpdateIds(page.orderedItems.value);
        var next := NextUrl(page);
        if next == "" then Success(ids)
        else
          ServedPageIsKnown(pages, url);
          VisitShrinks(pages.Keys, visited, url);
          Prepend(ids, Walk(pages, next, visited + {url}))
  }

  /** Fetching a page not yet visited leaves fewer known pages unvisited. */
  lemma VisitShrinks(keys: set<string>, visited: set<string>, url: string)
    requires url in keys && url !in visited
    ensures |keys - (visited + {url})| < |keys - visited|
  {
    assert keys - (visited + {url}) == (keys - visited) - {url};
  }

  /** One turn of the loop: a page not yet visited is fetched; its failure ends the walk, and
      otherwise its ids come before those of the pages after it. */
  lemma WalkStep(pages: Server<Page>, url: string, visited: set<string>)
    requires url != "" && url !in visited
    ensures var p := PageResult(AttemptsFor(pages, url));
      && (p.Failure? ==> Walk(pages, url, visited) == Failure(p.error))
      && (p.Success? && NextUrl(p.value) == "" ==>
            Walk(pages, url, visited) == Success(UpdateIds(p.value.orderedItems.value)))
      && (p.Success? && NextUrl(p.value) != "" ==>
            Walk(pages, url, visited) == Prepend(UpdateIds(p.value.orderedItems.value), Walk(pages, NextUrl(p.value), visited + {url})))
  {
  }

  /** `getManifestUrls` as a function of the collection's and the pages' responses. */
  function ManifestUrls(collection: seq<Attempt<Collection>>, pages: Server<Page>): Result<seq<string>> {
    match Retry(collection)
    case Failure(e) => Failure(e)
    case Success(response) =>
      match response.body
      case Failure(e) => Failure(e)
      case Success(c) =>
        if c.firstId.None? || c.firstId.value == "" then Failure(InvalidCollection)
        else Walk(pages, c.firstId.value, {})
  }

  /** A collection without a `first.id` fails before any page is fetched: what the pages
      would say makes no difference. */
  lemma MissingFirstFailsFirst(collection: seq<Attempt<Collection>>, pages: Server<Page>, others: Server<Page>)
    requires Retry(collection).Success? && Retry(collection).value.body.Success?
    requires var c := Retry(collection).value.body.value; c.firstId.None? || c.firstId.value == ""
    ensures ManifestUrls(collection, pages) == Failure(InvalidCollection)
    ensures ManifestUrls(collection, others) == ManifestUrls(collection, pages)
  {
  }

  /** `getManifestUrls`, over the collection's responses and the pages' responses. The
      `visited` set is the part the source does not have. */
  method GetManifestUrls(collection: seq<Attempt<Collection>>, pages: Server<Page>) returns (r: Result<seq<string>>)
    ensures r == ManifestUrls(collection, pages)
  {
    var response, _ := FetchWithRetry(collection);
    if response.Failure? {
      return Failure(response.error);
    }
    var data := response.value.body;
    if data.Failure? {
      return Failure(data.error);
    }
    if data.value.firstId.None? || data.value.firstId.value == "" {
      return Failure(InvalidCollection);
    }
    r := FollowPages(pages, data.value.firstId.value);
  }

  /** The `while (currentPageUrl)` loop of `getManifestUrls`, from the collection's first page. */
  method FollowPages(pages: Server<Page>, first: string) returns (r: Result<seq<string>>)
    requires first != ""
    ensures r == Walk(pages, first, {})
  {
    var manifestUrls: seq<string> := [];
    var currentPageUrl := first;
    var visited: set<string> := {};
    if Walk(pages, first, {}).Success? {
      assert [] + Walk(pages, first, {}).value == Walk(pages, first, {}).value;
    }
    while currentPageUrl != ""
      invariant currentPageUrl != "" ==> Walk(pages, first, {}) == Prepend(manifestUrls, Walk(pages, currentPageUrl, visited))
      invariant currentPageUrl == "" ==> Walk(pages, first, {}) == Success(manifestUrls)
      decreases |pages.Keys - visited|
    {
      if currentPageUrl in visited {
        return Failure(RevisitedPage + currentPageUrl);
      }
      WalkStep(pages, currentPageUrl, visited);
      var page := FetchCollectionPage(AttemptsFor(pages, currentPageUrl));
      if page.Failure? {
        return Failure(page.error);
      }
      ServedPageIsKnown(pages, currentPageUrl);
      VisitShrinks(pages.Keys, visited, currentPageUrl);
      var pageUrls := UpdateIds(page.value.orderedItems.value);
      if NextUrl(page.value) != "" {
        PrependTwice(manifestUrls, pageUrls, pages, NextUrl(page.value), visited + {currentPageUrl});
      }
      manifestUrls := manifestUrls + pageUrls;
      visited := visited + {currentPageUrl};
      currentPageUrl := NextUrl(page.value);
    }
    r := Success(manifestUrls);
  }

  lemma PrependTwice(a: seq<string>, b: seq<string>, pages: Server<Page>, url: string, visited: set<string>)
    requires url != ""
    ensures Prepend(a, Prepend(b, Walk(pages, url, visited))) == Prepend(a + b, Walk(pages, url, visited))
  {
    if Walk(pages, url, visited).Success? {
      assert a + (b + Walk(pages, url, visited).value) == (a + b) + Walk(pages, url, visited).value;
    }
  }

  /** The URLs of a chain of pages. */
  function ChainUrls(chain: seq<(string, Page)>): (r: seq<string>)
    ensures |r| == |chain|
    ensures forall i :: 0 <= i < |chain| ==> r[i] == chain[i].0
  {
    if chain == [] then [] else [chain[0].0] + ChainUrls(chain[1..])
  }

  /** The ids a chain of pages contributes, page by page and item by item. */
  function Collected(chain: seq<(string, Page)>): seq<string> {
    if chain == [] then [] else UpdateIds(ItemsOf(chain[0].1)) + Collected(chain[1..])
  }

  /** A page's `orderedItems`; only pages that have them are ever walked. */
  function ItemsOf(page: Page): seq<Activity> {
    if page.orderedItems.Some? then page.orderedItems.value else []
  }

  /** `chain` is what the loop reads: each URL served as its page and not met again further on,
      each page's `next` the following URL, and the last page without a `next`. */
  predicate IsChain(pages: Server<Page>, chain: seq<(string, Page)>)
    decreases |chain|
  {
    && |chain| > 0
    && chain[0].0 != ""
    && PageResult(AttemptsFor(pages, chain[0].0)) == Success(chain[0].1)
    && chain[0].0 !in ChainUrls(chain[1..])
    && if |chain| == 1 then NextUrl(chain[0].1) == ""
       else NextUrl(chain[0].1) == chain[1].0 && IsChain(pages, chain[1..])
  }

  /** Every page of a chain is served and holds an `orderedItems` array. */
  lemma {:induction false} ChainPagesAreServed(pages: Server<Page>, chain: seq<(string, Page)>)
    requires IsChain(pages, chain)
    ensures forall i :: 0 <= i < |chain| ==> chain[i].1.orderedItems.Some?
    ensures NoDuplicates(ChainUrls(chain))
    decreases |chain|
  {
    if |chain| > 1 {
      ChainPagesAreServed(pages, chain[1..]);
      forall i | 0 <= i < |chain| ensures chain[i].1.orderedItems.Some? {
        if i > 0 {
          assert chain[i] == chain[1..][i - 1];
        }
      }
      forall i, j | 0 <= i < j < |chain| ensures ChainUrls(chain)[i] != ChainUrls(chain)[j] {
        assert ChainUrls(chain)[j] == ChainUrls(chain[1..])[j - 1];
        if i > 0 {
          assert ChainUrls(chain)[i] == ChainUrls(chain[1..])[i - 1];
        }
      }
    }
  }

  /** Along a chain of pages the walk collects the `Update` ids of every page, in visit order. */
  lemma {:induction false} ChainIsWalked(pages: Server<Page>, chain: seq<(string, Page)>, visited: set<string>)
    requires IsChain(pages, chain)
    requires forall i :: 0 <= i < |chain| ==> chain[i].0 !in visited
    ensures Walk(pages, chain[0].0, visited) == Success(Collected(chain))
    decreases |chain|
  {
    var url := chain[0].0;
    WalkStep(pages, url, visited);
    assert PageResult(AttemptsFor(pages, url)) == Success(chain[0].1);
    assert url !in visited;
    if |chain| == 1 {
      assert NextUrl(chain[0].1) == "";
      assert Walk(pages, url, visited) == Success(UpdateIds(chain[0].1.orderedItems.value));
      assert chain[1..] == [];
      assert Collected(chain) == UpdateIds(ItemsOf(chain[0].1)) + [];
      assert UpdateIds(ItemsOf(chain[0].1)) + [] == UpdateIds(chain[0].1.orderedItems.value);
    } else {
      var rest := chain[1..];
      forall i | 0 <= i < |rest| ensures rest[i].0 !in visited + {url} {
        assert rest[i] == chain[i + 1];
        assert ChainUrls(rest)[i] == rest[i].0;
      }
      ChainIsWalked(pages, rest, visited + {url});
    }
  }

  /** Conversely, every successful walk follows a chain of pages and returns what it collects. */
  lemma {:induction false} WalkFollowsChain(pages: Server<Page>, url: string, visited: set<string>) returns (chain: seq<(string, Page)>)
    requires url != "" && Walk(pages, url, visited).Success?
    ensures IsChain(pages, chain) && chain[0].0 == url
    ensures forall i :: 0 <= i < |chain| ==> chain[i].0 !in visited
    ensures Walk(pages, url, visited) == Success(Collected(chain))
    decreases |pages.Keys - visited|
  {
    var page := PageResult(AttemptsFor(pages, url)).value;
    var next := NextUrl(page);
    WalkStep(pages, url, visited);
    if next == "" {
      chain := [(url, page)];
      assert ChainUrls(chain[1..]) == [];
      assert chain[1..] == [];
      assert Collected(chain) == UpdateIds(ItemsOf(page)) + [];
      assert UpdateIds(ItemsOf(page)) + [] == UpdateIds(page.orderedItems.value);
    } else {
      ServedPageIsKnown(pages, url);
      VisitShrinks(pages.Keys, visited, url);
      var rest := WalkFollowsChain(pages, next, visited + {url});
      chain := [(url, page)] + rest;
      assert chain[1..] == rest;
      assert url !in ChainUrls(rest);
      assert Collected(chain) == UpdateIds(ItemsOf(page)) + Collected(rest);
      forall i | 0 <= i < |chain| ensures chain[i].0 !in visited {
        if i > 0 {
          assert chain[i] == rest[i - 1];
        }
      }
    }
  }

  /** A walk over a served page that links back to itself. */
  function SelfLinked(url: string): Server<Page> {
    map[url := [Answer(Response(200, "", Success(Page(Some([]), Some(url)))))]]
  }

  /** The loop as the source writes it: no record of visited pages. `None` means `fuel`
      pages were fetched and the loop had not stopped. A page fetched again is answered as on
      its first visit, as a `Server` answers. */
  function WalkAsWritten(pages: Server<Page>, url: string, fuel: nat): Option<Result<seq<string>>>
    requires url != ""
    decreases fuel
  {
    if fuel == 0 then None
    else match PageResult(AttemptsFor(pages, url))
      case Failure(e) => Some(Failure(e))
      case Success(page) =>
        var ids := UpdateIds(page.orderedItems.value);
        var next := NextUrl(page);
        if next == "" then Some(Success(ids))
        else match WalkAsWritten(pages, next, fuel - 1)
          case None => None
          case Some(r) => Some(Prepend(ids, r))
  }

  /** On a page whose `next` is itself, the source's loop fetches it for ever: no number of
      fetches ends it. */
  lemma {:induction false} AsWrittenSelfLinkNeverEnds(url: string, fuel: nat)
    requires url != ""
    ensures WalkAsWritten(SelfLinked(url), url, fuel) == None
    decreases fuel
  {
    var pages := SelfLinked(url);
    if fuel > 0 {
      assert AttemptsFor(pages, url) == [Answer(Response(200, "", Success(Page(Some([]), Some(url)))))];
      assert PageResult(AttemptsFor(pages, url)) == Success(Page(Some([]), Some(url)));
      AsWrittenSelfLinkNeverEnds(url, fuel - 1);
    }
  }

  /** The guarded walk reports the revisit after one fetch. */
  lemma SelfLinkReported(url: string)
    requires url != ""
    ensures Walk(SelfLinked(url), url, {}) == Failure(RevisitedPage + url)
  {
    var pages := SelfLinked(url);
    assert AttemptsFor(pages, url) == [Answer(Response(200, "", Success(Page(Some([]), Some(url)))))];
    assert PageResult(AttemptsFor(pages, url)) == Success(Page(Some([]), Some(url)));
    assert Walk(pages, url, {url}) == Failure(RevisitedPage + url);
  }

  /** Along a chain of pages the source's loop, given one fetch per page, returns what the
      guarded walk returns. */
  lemma {:induction false} GuardIsTransparentOnChains(pages: Server<Page>, chain: seq<(string, Page)>)
    requires IsChain(pages, chain)
    ensures WalkAsWritten(pages, chain[0].0, |chain|) == Some(Success(Collected(chain)))
    decreases |chain|
  {
    if |chain| == 1 {
      assert chain[1..] == [];
      assert Collected(chain) == UpdateIds(ItemsOf(chain[0].1)) + [];
      assert UpdateIds(ItemsOf(chain[0].1)) + [] == UpdateIds(chain[0].1.orderedItems.value);
    } else {
      GuardIsTransparentOnChains(pages, chain[1..]);
    }
  }

  /** The URL the source's loop moves to after `url`: only a served page with a non-empty
      `next` leads on. */
  function Hop(pages: Server<Page>, url: string): (r: Option<string>)
    ensures r.Some? ==> r.value != ""
  {
    match PageResult(AttemptsFor(pages, url))
    case Failure(_) => None
    case Success(page) => if NextUrl(page) == "" then None else Some(NextUrl(page))
  }

  /** Where the source's loop is after `k` turns from `url`, if it gets that far. */
  function Reach(pages: Server<Page>, url: string, k: nat): Option<string>
    decreases k
  {
    if k == 0 then Some(url)
    else match Hop(pages, url)
      case None => None
      case Some(next) => Reach(pages, next, k - 1)
  }

  /** From `v` the source's loop gets to `url` after one turn or more. */
  ghost predicate LeadsTo(pages: Server<Page>, v: string, url: string) {
    exists k: nat :: 1 <= k && Reach(pages, v, k) == Some(url)
  }

  /** `k + m` turns are `k` turns and then `m` more. */
  lemma {:induction false} ReachAdd(pages: Server<Page>, url: string, k: nat, m: nat)
    ensures Reach(pages, url, k + m) == if Reach(pages, url, k).None? then None else Reach(pages, Reach(pages, url, k).value, m)
    decreases k
  {
    if k > 0 && Hop(pages, url).Some? {
      ReachAdd(pages, Hop(pages, url).value, k - 1, m);
    }
  }

  /** A loop that stops within `fuel` fetches does not make `fuel` turns. */
  lemma {:induction false} StoppedLoopTurnsLess(pages: Server<Page>, url: string, fuel: nat)
    requires url != "" && WalkAsWritten(pages, url, fuel).Some?
    ensures Reach(pages, url, fuel).None?
    decreases fuel
  {
    if Hop(pages, url).Some? {
      StoppedLoopTurnsLess(pages, Hop(pages, url).value, fuel - 1);
    }
  }

  /** On a cycle of `k` turns back to `url`, the loop makes any number of turns. */
  lemma {:induction false} CycleTurnsForEver(pages: Server<Page>, url: string, k: nat, m: nat)
    requires 1 <= k && Reach(pages, url, k) == Some(url)
    ensures Reach(pages, url, m).Some?
    decreases m
  {
    if m < k {
      ReachAdd(pages, url, m, k - m);
    } else {
      ReachAdd(pages, url, k, m - k);
      CycleTurnsForEver(pages, url, k, m - k);
    }
  }

  /** When the source's loop stops, the guard never fires: from a page that every already
      visited page leads to, the guarded walk returns what the loop returns. Like the `Server`
      it reads, this takes a revisited page to be answered as on its first visit. */
  lemma {:induction false} GuardIsTransparentFrom(pages: Server<Page>, url: string, visited: set<string>, fuel: nat, r: Result<seq<string>>)
    requires url != "" && WalkAsWritten(pages, url, fuel) == Some(r)
    requires forall v :: v in visited ==> LeadsTo(pages, v, url)
    ensures Walk(pages, url, visited) == r
    decreases fuel
  {
    if url in visited {
      var k: nat :| 1 <= k && Reach(pages, url, k) == Some(url);
      CycleTurnsForEver(pages, url, k, fuel);
      StoppedLoopTurnsLess(pages, url, fuel);
      assert false;
    }
    WalkStep(pages, url, visited);
    var next := Hop(pages, url);
    if next.Some? {
      var page := PageResult(AttemptsFor(pages, url)).value;
      assert NextUrl(page) == next.value;
      var rest := WalkAsWritten(pages, next.value, fuel - 1).value;
      assert r == Prepend(UpdateIds(page.orderedItems.value), rest);
      forall v | v in visited + {url} ensures LeadsTo(pages, v, next.value) {
        if v == url {
          assert Reach(pages, url, 1) == Some(next.value);
        } else {
          var k: nat :| 1 <= k && Reach(pages, v, k) == Some(url);
          ReachAdd(pages, v, k, 1);
          assert Reach(pages, url, 1) == Some(next.value);
          assert Reach(pages, v, k + 1) == Some(next.value);
        }
      }
      GuardIsTransparentFrom(pages, next.value, visited + {url}, fuel - 1, rest);
    }
  }

  /** Whenever the source's loop stops, whether it collects every page or throws on one, the
      guarded walk returns the same result: the guard only ever changes a loop that never ends.
      Like the `Server` it reads, this takes a revisited page to be answered as on its first visit. */
  lemma GuardIsTransparent(pages: Server<Page>, url: string, fuel: nat)
    requires url != "" && WalkAsWritten(pages, url, fuel).Some?
    ensures Walk(pages, url, {}) == WalkAsWritten(pages, url, fuel).value
  {
    GuardIsTransparentFrom(pages, url, {}, fuel, WalkAsWritten(pages, url, fuel).value);
  }

  /** `fetchManifest`: fetch with retries and parse. */
  function ManifestResult(attempts: seq<Attempt<Manifest>>): (r: Result<Manifest>)
    ensures r.Success? <==> Retry(attempts).Success? && Retry(attempts).value.body.Success?
    ensures r.Success? ==> r.value == Retry(attempts).value.body.value
  {
    match Retry(attempts)
    case Failure(e) => Failure(e)
    case Success(response) => response.body
  }

  method FetchManifest(attempts: seq<Attempt<Manifest>>) returns (r: Result<Manifest>)
    ensures r == ManifestResult(attempts)
  {
    var response, _ := FetchWithRetry(attempts);
    if response.Failure? {
      return Failure(response.error);
    }
    r := response.value.body;
  }
}
