/** The HTTP connector's request loop: retries over attempts, pagination within one attempt.
    The server is an adversary that answers each request anew. */
module HttpInvoke {
  import opened Values

  type Url = string
  type Origin = (string, string, int)

  const VALIDATION_FAILED := "validation_failed"

  /** One answer: a parsed body, or a failure with its error class. */
  datatype Reply = Page(body: Mapping) | Fault(errorClass: string)

  /** A connector response before redaction. */
  datatype Response = Success(payload: Mapping) | Failure(errorClass: string, reason: Reason)

  datatype Reason = FetchFailed | UnsafeNext | LoopDetected | NoItemsPath

  /** Everything the loops do not control. `reply` is indexed by the number of requests sent
      before, so repeated requests may be answered differently. */
  datatype Server = Server(
    base: Url,
    start: Option<Url>,
    origin: Url -> Option<Origin>,
    resolve: (Url, Value) -> Option<Url>,
    reply: (nat, Url) -> Reply)

  /** How an action pages: its paths, and how many pages at most. */
  datatype Paging = Paging(itemsPath: string, nextPath: string, maxPages: int)

  predicate SameOrigin(s: Server, url: Url) {
    s.origin(s.base).Some? && s.origin(url) == s.origin(s.base)
  }

  /** The request that is sent for a page, or nothing when the URL cannot be built or leaves the
      base origin. */
  function Request(s: Server, override: Option<Url>): Option<Url> {
    var url := if override.Some? then override else s.start;
    if url.Some? && SameOrigin(s, url.value) then url else None
  }

  // ---------------------------------------------------------------- reading a page

  function SplitDots(path: string): (segments: seq<string>)
    ensures segments != []
  {
    if path == "" then [""]
    else
      var rest := SplitDots(path[1..]);
      if path[0] == '.' then [""] + rest else [[path[0]] + rest[0]] + rest[1..]
  }

  /** The value a path leads to; blank segments are passed over. */
  function Walk(v: Value, segments: seq<string>): Value
    decreases |segments|
  {
    if segments == [] then v
    else if segments[0] == "" then Walk(v, segments[1..])
    else if v.Dict? then Walk(Get(v.fields, segments[0]), segments[1..])
    else Null
  }

  /** The same as a loop. */
  method GetJsonPath(payload: Value, path: string) returns (current: Value)
    ensures current == Walk(payload, SplitDots(path))
  {
    var segments := SplitDots(path);
    current := payload;
    for i := 0 to |segments|
      invariant Walk(current, segments[i..]) == Walk(payload, segments)
    {
      assert segments[i..][0] == segments[i] && segments[i..][1..] == segments[i + 1..];
      if segments[i] == "" {
        continue;
      }
      if !current.Dict? {
        return Null;
      }
      current := Get(current.fields, segments[i]);
    }
  }

  function PathIn(r: Reply, path: string): Value {
    if r.Page? then Walk(Dict(r.body), SplitDots(path)) else Null
  }

  function ItemsOf(r: Reply, p: Paging): seq<Value> {
    var items := PathIn(r, p.itemsPath);
    if items.List? then items.items else []
  }

  method ReadItems(reply: Reply, p: Paging) returns (found: seq<Value>)
    requires reply.Page?
    ensures found == ItemsOf(reply, p)
  {
    var items := GetJsonPath(Dict(reply.body), p.itemsPath);
    found := if items.List? then items.items else [];
  }

  method ReadNext(reply: Reply, p: Paging) returns (next: Value)
    requires reply.Page?
    ensures next == PathIn(reply, p.nextPath)
  {
    next := GetJsonPath(Dict(reply.body), p.nextPath);
  }

  /** The merged payload of a pagination: the items under the last segment of their path. */
  function Merged(p: Paging, items: seq<Value>): Mapping {
    var segments := SplitDots(p.itemsPath);
    map[segments[|segments| - 1] := List(items)]
  }

  /** The answers to a sequence of requests sent after `sent` earlier ones, concatenated. */
  function Collected(s: Server, p: Paging, sent: nat, urls: seq<Url>): seq<Value> {
    if urls == [] then []
    else Collected(s, p, sent, urls[..|urls| - 1]) + ItemsOf(s.reply(sent + |urls| - 1, urls[|urls| - 1]), p)
  }

  // ---------------------------------------------------------------- the course of one attempt

  /** Where the answer to request `i` leads. */
  function Leads(s: Server, p: Paging, sent: nat, urls: seq<Url>, i: nat): Option<Url>
    requires i < |urls|
  {
    s.resolve(urls[i], PathIn(s.reply(sent + i, urls[i]), p.nextPath))
  }

  ghost predicate Starts(s: Server, urls: seq<Url>) {
    urls != [] ==> s.start == Some(urls[0])
  }

  ghost predicate AnsweredAt(s: Server, sent: nat, urls: seq<Url>, i: nat)
    requires i < |urls|
  {
    SameOrigin(s, urls[i]) && s.reply(sent + i, urls[i]).Page?
  }

  ghost predicate Answered(s: Server, sent: nat, urls: seq<Url>) {
    forall i :: 0 <= i < |urls| ==> AnsweredAt(s, sent, urls, i)
  }

  ghost predicate LinkedAt(s: Server, p: Paging, sent: nat, urls: seq<Url>, i: nat)
    requires i + 1 < |urls|
  {
    Leads(s, p, sent, urls, i) == Some(urls[i + 1])
  }

  ghost predicate Linked(s: Server, p: Paging, sent: nat, urls: seq<Url>) {
    forall i :: 0 <= i < |urls| - 1 ==> LinkedAt(s, p, sent, urls, i)
  }

  ghost predicate Distinct(urls: seq<Url>) {
    forall i, j :: 1 <= i < j < |urls| ==> urls[i] != urls[j]
  }

  /** The requests of one paginated attempt: the first is the built one, each later one is where
      the previous answer's next value leads, all were answered with a page, and no link was
      followed twice. */
  ghost predicate Chain(s: Server, p: Paging, sent: nat, urls: seq<Url>) {
    Starts(s, urls) && Answered(s, sent, urls) && Linked(s, p, sent, urls) && Distinct(urls)
  }

  /** Where the last answer of a chain leads. */
  function NextOf(s: Server, p: Paging, sent: nat, urls: seq<Url>): Option<Url>
    requires urls != []
  {
    Leads(s, p, sent, urls, |urls| - 1)
  }

  /** A next URL that is within the base origin and was not followed before. */
  ghost predicate Acceptable(s: Server, paged: seq<Url>, next: Url)
    requires paged != []
  {
    SameOrigin(s, next) && next !in paged[1..]
  }

  /** The attempt may end in success here: no page was allowed, or the last page leads nowhere,
      or its page is the last one allowed and leads somewhere acceptable. */
  ghost predicate MayStop(s: Server, p: Paging, sent: nat, paged: seq<Url>, maxPages: int) {
    if paged == [] then maxPages <= 0
    else
      || p.nextPath == "" || NextOf(s, p, sent, paged).None?
      || (|paged| == maxPages && Acceptable(s, paged, NextOf(s, p, sent, paged).value))
  }

  /** The URL asked for once `paged` have been answered. */
  function Asked(s: Server, p: Paging, sent: nat, paged: seq<Url>): Option<Url> {
    if paged == [] then s.start else NextOf(s, p, sent, paged)
  }

  /** The next request was refused before it was sent, or faulted with this class. */
  ghost predicate MayFault(s: Server, p: Paging, sent: nat, paged: seq<Url>, c: string, requests: nat) {
    var asked := Asked(s, p, sent, paged);
    && (paged != [] ==> p.nextPath != "" && asked.Some? && Acceptable(s, paged, asked.value))
    && if asked.Some? && SameOrigin(s, asked.value)
       then s.reply(sent + |paged|, asked.value) == Fault(c) && requests == |paged| + 1
       else c == VALIDATION_FAILED && requests == |paged|
  }

  /** The last page led to a URL that is not followed. */
  ghost predicate MayRefuse(s: Server, p: Paging, sent: nat, paged: seq<Url>, reason: Reason) {
    && paged != [] && p.nextPath != "" && NextOf(s, p, sent, paged).Some?
    && !Acceptable(s, paged, NextOf(s, p, sent, paged).value)
    && reason == if SameOrigin(s, NextOf(s, p, sent, paged).value) then LoopDetected else UnsafeNext
  }

  /** Why a paginated attempt ended as it did, and how many requests it sent. `paged` are the
      requests answered with a page. */
  ghost predicate Explains(s: Server, p: Paging, sent: nat, paged: seq<Url>, r: Response, requests: nat) {
    && Chain(s, p, sent, paged) && (paged != [] ==> |paged| <= p.maxPages) && (|paged| > 1 ==> p.nextPath != "")
    && match r
       case Success(payload) =>
         && payload == Merged(p, Collected(s, p, sent, paged)) && MayStop(s, p, sent, paged, p.maxPages)
         && requests == |paged|
       case Failure(c, FetchFailed) => |paged| < p.maxPages && MayFault(s, p, sent, paged, c, requests)
       case Failure(c, reason) =>
         c == VALIDATION_FAILED && MayRefuse(s, p, sent, paged, reason) && requests == |paged|
  }

  /** The URL the next request goes to, once `paged` have been answered. */
  ghost predicate Follows(s: Server, p: Paging, sent: nat, paged: seq<Url>, next: Option<Url>) {
    if paged == [] then next == None
    else
      && p.nextPath != "" && next == NextOf(s, p, sent, paged)
      && next.Some? && SameOrigin(s, next.value) && next.value !in paged[1..]
  }

  /** The URLs followed so far: every request after the first. */
  function Followed(paged: seq<Url>): set<Url> {
    set i | 1 <= i < |paged| :: paged[i]
  }

  lemma {:induction false} ExtendLinks(s: Server, p: Paging, sent: nat, paged: seq<Url>, url: Url)
    requires Linked(s, p, sent, paged) && (paged != [] ==> NextOf(s, p, sent, paged) == Some(url))
    ensures Linked(s, p, sent, paged + [url])
  {
    var more := paged + [url];
    forall i | 0 <= i < |more| - 1 ensures LinkedAt(s, p, sent, more, i) {
      if i + 1 < |paged| { assert LinkedAt(s, p, sent, paged, i); }
    }
  }

  lemma {:induction false} ExtendAnswered(s: Server, sent: nat, paged: seq<Url>, url: Url)
    requires Answered(s, sent, paged) && SameOrigin(s, url) && s.reply(sent + |paged|, url).Page?
    ensures Answered(s, sent, paged + [url])
  {
    var more := paged + [url];
    forall i | 0 <= i < |more| ensures AnsweredAt(s, sent, more, i) {
      if i < |paged| { assert AnsweredAt(s, sent, paged, i); }
    }
  }

  lemma {:induction false} ExtendDistinct(paged: seq<Url>, url: Url)
    requires Distinct(paged) && (paged != [] ==> url !in paged[1..])
    ensures Distinct(paged + [url])
  {
    forall i | 1 <= i < |paged| ensures paged[i] != url {
      assert paged[1..][i - 1] == paged[i];
    }
  }

  lemma {:induction false} ExtendFollowed(paged: seq<Url>, url: Url)
    ensures Followed(paged + [url]) == Followed(paged) + if paged == [] then {} else {url}
  {
    var more := paged + [url];
    if paged != [] { assert more[|paged|] == url; }
    assert forall i :: 1 <= i < |paged| ==> more[i] == paged[i];
  }

  lemma {:induction false} ExtendCollected(s: Server, p: Paging, sent: nat, paged: seq<Url>, url: Url)
    ensures (Collected(s, p, sent, paged + [url])
             == Collected(s, p, sent, paged) + ItemsOf(s.reply(sent + |paged|, url), p))
  {
    assert (paged + [url])[..|paged|] == paged;
  }

  lemma {:induction false} ExtendChain(s: Server, p: Paging, sent: nat, paged: seq<Url>, next: Option<Url>, url: Url)
    requires Chain(s, p, sent, paged) && Follows(s, p, sent, paged, next)
    requires Request(s, next) == Some(url) && s.reply(sent + |paged|, url).Page?
    ensures Chain(s, p, sent, paged + [url])
  {
    ExtendAnswered(s, sent, paged, url);
    ExtendLinks(s, p, sent, paged, url);
    ExtendDistinct(paged, url);
  }

  datatype Turn = Stop | Refuse(reason: Reason) | Go(url: Url)

  /** What a page leads to. */
  function TurnOf(s: Server, p: Paging, url: Url, next: Value, visited: set<Url>): Turn {
    if p.nextPath == "" then Stop
    else
      match s.resolve(url, next)
      case None => Stop
      case Some(u) =>
        if !SameOrigin(s, u) then Refuse(UnsafeNext)
        else if u in visited then Refuse(LoopDetected)
        else Go(u)
  }

  lemma {:induction false} FollowedIsTail(paged: seq<Url>, u: Url)
    requires paged != []
    ensures u in Followed(paged) <==> u in paged[1..]
  {
    if u in paged[1..] {
      var i :| 0 <= i < |paged[1..]| && paged[1..][i] == u;
      assert paged[i + 1] == u;
    }
    if u in Followed(paged) {
      var i :| 1 <= i < |paged| && paged[i] == u;
      assert paged[1..][i - 1] == u;
    }
  }

  lemma {:induction false} TurnFacts(s: Server, p: Paging, sent: nat, paged: seq<Url>, maxPages: int)
    requires paged != []
    ensures var n := |paged| - 1;
      match TurnOf(s, p, paged[n], PathIn(s.reply(sent + n, paged[n]), p.nextPath), Followed(paged))
      case Stop => MayStop(s, p, sent, paged, maxPages)
      case Refuse(reason) => MayRefuse(s, p, sent, paged, reason) && reason in {UnsafeNext, LoopDetected}
      case Go(u) => Follows(s, p, sent, paged, Some(u)) && MayStop(s, p, sent, paged, |paged|)
  {
    var next := NextOf(s, p, sent, paged);
    if next.Some? { FollowedIsTail(paged, next.value); }
  }

  /** The loop between two pages. */
  ghost predicate Midway(s: Server, p: Paging, sent: nat, paged: seq<Url>, next: Option<Url>, visited: set<Url>) {
    && Chain(s, p, sent, paged) && (paged != [] ==> |paged| <= p.maxPages) && (|paged| > 1 ==> p.nextPath != "")
    && Follows(s, p, sent, paged, next)
    && (paged != [] ==> MayStop(s, p, sent, paged, |paged|))
    && visited == Followed(paged) + if next.None? then {} else {next.value}
  }

  lemma {:induction false} FaultExplains(s: Server, p: Paging, sent: nat, paged: seq<Url>, next: Option<Url>, visited: set<Url>)
    requires Midway(s, p, sent, paged, next, visited) && |paged| < p.maxPages
    ensures match Request(s, next)
      case None => Explains(s, p, sent, paged, Failure(VALIDATION_FAILED, FetchFailed), |paged|)
      case Some(url) =>
        var reply := s.reply(sent + |paged|, url);
        reply.Fault? ==> Explains(s, p, sent, paged, Failure(reply.errorClass, FetchFailed), |paged| + 1)
  {
  }

  lemma {:induction false} PageExplains(s: Server, p: Paging, sent: nat, paged: seq<Url>, next: Option<Url>,
                                        visited: set<Url>, url: Url)
    requires Midway(s, p, sent, paged, next, visited) && |paged| < p.maxPages
    requires Request(s, next) == Some(url) && s.reply(sent + |paged|, url).Page?
    ensures var reply, more := s.reply(sent + |paged|, url), paged + [url];
      match TurnOf(s, p, url, PathIn(reply, p.nextPath), visited)
      case Stop => Explains(s, p, sent, more, Success(Merged(p, Collected(s, p, sent, more))), |more|)
      case Refuse(reason) => Explains(s, p, sent, more, Failure(VALIDATION_FAILED, reason), |more|)
      case Go(u) => Midway(s, p, sent, more, Some(u), visited + {u})
  {
    ExtendChain(s, p, sent, paged, next, url);
    ExtendFollowed(paged, url);
    TurnFacts(s, p, sent, paged + [url], p.maxPages);
    assert (paged + [url])[|paged|] == url;
  }

  lemma {:induction false} LastPageExplains(s: Server, p: Paging, sent: nat, paged: seq<Url>, next: Option<Url>, visited: set<Url>)
    requires Midway(s, p, sent, paged, next, visited) && |paged| >= p.maxPages
    ensures Explains(s, p, sent, paged, Success(Merged(p, Collected(s, p, sent, paged))), |paged|)
  {
  }

  /** What a page makes of the attempt: its end, or the URL it goes on to. */
  ghost predicate PageTaken(s: Server, p: Paging, sent: nat, paged: seq<Url>, visited: set<Url>,
                            done: Option<Response>, url: Url, collected: seq<Value>)
  {
    match done
    case Some(r) => Explains(s, p, sent, paged, r, |paged|)
    case None => Midway(s, p, sent, paged, Some(url), visited + {url}) && collected == Collected(s, p, sent, paged)
  }

  /** Add a page's items and see where it leads. */
  method TakePage(s: Server, p: Paging, sent: nat, reply: Reply, url: Url, visited: set<Url>,
                  collected: seq<Value>, ghost paged: seq<Url>, ghost next: Option<Url>)
    returns (done: Option<Response>, url': Url, collected': seq<Value>)
    requires Midway(s, p, sent, paged, next, visited) && |paged| < p.maxPages
    requires collected == Collected(s, p, sent, paged)
    requires Request(s, next) == Some(url) && reply == s.reply(sent + |paged|, url) && reply.Page?
    ensures PageTaken(s, p, sent, paged + [url], visited, done, url', collected')
  {
    PageExplains(s, p, sent, paged, next, visited, url);
    ExtendCollected(s, p, sent, paged, url);
    var items := ReadItems(reply, p);
    collected' := collected + items;
    var value := ReadNext(reply, p);
    match TurnOf(s, p, url, value, visited) {
      case Stop => done, url' := Some(Success(Merged(p, collected'))), url;
      case Refuse(reason) => done, url' := Some(Failure(VALIDATION_FAILED, reason)), url;
      case Go(u) => done, url' := None, u;
    }
  }

  /** One round of the loop: send the next request, and take the page it is answered with. */
  method FetchPage(s: Server, p: Paging, sent: nat, pages: nat, nextUrl: Option<Url>, visited: set<Url>,
                   collected: seq<Value>, ghost paged: seq<Url>)
    returns (done: Option<Response>, sent': nat, url: Url, collected': seq<Value>, ghost paged': seq<Url>)
    requires Midway(s, p, sent, paged, nextUrl, visited) && pages == |paged| < p.maxPages
    requires collected == Collected(s, p, sent, paged)
    ensures sent + pages <= sent' <= sent + pages + 1
    ensures done.Some? ==> Explains(s, p, sent, paged', done.value, sent' - sent)
    ensures done.None? ==>
      && Midway(s, p, sent, paged', Some(url), visited + {url}) && |paged'| == pages + 1 == sent' - sent
      && collected' == Collected(s, p, sent, paged')
  {
    FaultExplains(s, p, sent, paged, nextUrl, visited);
    sent', url, collected', paged' := sent + pages, "", collected, paged;
    var request := Request(s, nextUrl);
    if request.None? {
      done := Some(Failure(VALIDATION_FAILED, FetchFailed));
      return;
    }
    url := request.value;
    var reply := s.reply(sent', url);
    sent' := sent' + 1;
    if reply.Fault? {
      done := Some(Failure(reply.errorClass, FetchFailed));
      return;
    }
    paged' := paged + [url];
    done, url, collected' := TakePage(s, p, sent, reply, url, visited, collected, paged, nextUrl);
  }

  /** One paginated attempt. It follows next values within the base origin, visits no followed
      URL twice, and sends at most `maxPages` requests. */
  method InvokePaginated(s: Server, p: Paging, sent: nat) returns (r: Response, sent': nat, ghost paged: seq<Url>)
    ensures sent' >= sent && Explains(s, p, sent, paged, r, sent' - sent)
    ensures sent' <= sent + if p.maxPages > 0 then p.maxPages else 0
  {
    var collected: seq<Value> := [];
    var nextUrl: Option<Url> := None;
    var pages := 0;
    var visited: set<Url> := {};
    sent', paged := sent, [];
    while pages < p.maxPages
      invariant 0 <= pages == |paged| == sent' - sent
      invariant pages <= if p.maxPages > 0 then p.maxPages else 0
      invariant Midway(s, p, sent, paged, nextUrl, visited)
      invariant collected == Collected(s, p, sent, paged)
    {
      var done, url;
      done, sent', url, collected, paged := FetchPage(s, p, sent, pages, nextUrl, visited, collected, paged);
      if done.Some? {
        return done.value, sent', paged;
      }
      pages := pages + 1;
      nextUrl := Some(url);
      visited := visited + {url};
    }
    LastPageExplains(s, p, sent, paged, nextUrl, visited);
    r := Success(Merged(p, collected));
  }

  // ---------------------------------------------------------------- one explanation

  lemma {:induction false} ChainsAgree(s: Server, p: Paging, sent: nat, a: seq<Url>, b: seq<Url>, n: nat)
    requires Chain(s, p, sent, a) && Chain(s, p, sent, b) && n <= |a| && n <= |b|
    ensures a[..n] == b[..n]
  {
    if n > 0 {
      ChainsAgree(s, p, sent, a, b, n - 1);
      if n > 1 {
        assert a[n - 2] == a[..n - 1][n - 2] == b[..n - 1][n - 2] == b[n - 2];
        assert LinkedAt(s, p, sent, a, n - 2) && LinkedAt(s, p, sent, b, n - 2);
      }
      assert a[..n] == a[..n - 1] + [a[n - 1]] && b[..n] == b[..n - 1] + [b[n - 1]];
    }
  }

  lemma {:induction false} ChainGoesOn(s: Server, p: Paging, sent: nat, a: seq<Url>, b: seq<Url>)
    requires Chain(s, p, sent, b) && a < b
    ensures AnsweredAt(s, sent, b, |a|)
    ensures a == [] ==> s.start == Some(b[0])
    ensures a != [] ==> NextOf(s, p, sent, a) == Some(b[|a|]) && Acceptable(s, a, b[|a|])
  {
    var n := |a|;
    assert AnsweredAt(s, sent, b, n);
    if a != [] {
      assert LinkedAt(s, p, sent, b, n - 1);
      forall i | 0 <= i < |a[1..]| ensures a[1..][i] != b[n] {
        assert a[1..][i] == b[i + 1];
      }
    }
  }

  lemma {:induction false} ChainIsPrefix(s: Server, p: Paging, sent: nat, a: seq<Url>, b: seq<Url>)
    requires Chain(s, p, sent, a) && Chain(s, p, sent, b) && |a| <= |b|
    ensures a <= b
  {
    ChainsAgree(s, p, sent, a, b, |a|);
    assert a == a[..|a|];
  }

  /** An explanation cannot stop where another one goes on. */
  lemma {:induction false} ChainsEndTogether(s: Server, p: Paging, sent: nat, a: seq<Url>, r: Response, m: nat,
                                             b: seq<Url>, r': Response, m': nat)
    requires Explains(s, p, sent, a, r, m) && Explains(s, p, sent, b, r', m')
    ensures |a| >= |b|
  {
    if |a| < |b| {
      ChainIsPrefix(s, p, sent, a, b);
      ChainGoesOn(s, p, sent, a, b);
    }
  }

  /** The explanation determines everything: for one server there is exactly one way a paginated
      attempt can go, and one number of requests it sends. */
  lemma {:induction false} OneExplanation(s: Server, p: Paging, sent: nat, a: seq<Url>, r: Response, m: nat,
                                          b: seq<Url>, r': Response, m': nat)
    requires Explains(s, p, sent, a, r, m) && Explains(s, p, sent, b, r', m')
    ensures a == b && r == r' && m == m'
  {
    ChainsEndTogether(s, p, sent, a, r, m, b, r', m');
    ChainsEndTogether(s, p, sent, b, r', m', a, r, m);
    ChainIsPrefix(s, p, sent, a, b);
  }

  // ---------------------------------------------------------------- one attempt

  /** An action: how it pages, if it does, and the key its single answer is unwrapped from. */
  datatype Action = Action(paging: Option<Paging>, unwrap: string)

  /** The payload of a single answer: the body, or what it holds under the unwrap key, which stays
      under that key unless it is a mapping itself. */
  function Unwrapped(body: Mapping, unwrap: string): Mapping {
    if unwrap == "" then body
    else if Get(body, unwrap).Dict? then Get(body, unwrap).fields
    else map[unwrap := Get(body, unwrap)]
  }

  predicate Paged(a: Action) {
    a.paging.Some? && a.paging.value.itemsPath != ""
  }

  /** Paging as the loop uses it: blanks around its paths do not count. */
  function Trimmed(p: Paging): Paging {
    Paging(Strip(p.itemsPath), Strip(p.nextPath), p.maxPages)
  }

  ghost predicate PagedExplains(s: Server, p: Paging, sent: nat, r: Response, requests: nat) {
    exists paged :: Explains(s, p, sent, paged, r, requests)
  }

  /** What one attempt ends in and how many requests it sends, with or without paging. */
  ghost predicate AttemptExplains(s: Server, a: Action, sent: nat, r: Response, requests: nat) {
    if !Paged(a) then
      match Request(s, None)
      case None => r == Failure(VALIDATION_FAILED, FetchFailed) && requests == 0
      case Some(url) =>
        && requests == 1
        && r == match s.reply(sent, url)
             case Fault(c) => Failure(c, FetchFailed)
             case Page(body) => Success(Unwrapped(body, a.unwrap))
    else if Strip(a.paging.value.itemsPath) == "" then r == Failure(VALIDATION_FAILED, NoItemsPath) && requests == 0
    else PagedExplains(s, Trimmed(a.paging.value), sent, r, requests)
  }

  /** The most requests one attempt can send. */
  function PerAttempt(a: Action): nat {
    if !Paged(a) then 1 else if a.paging.value.maxPages > 0 then a.paging.value.maxPages else 0
  }

  method InvokeOnce(s: Server, a: Action, sent: nat) returns (r: Response, sent': nat)
    ensures sent' >= sent && AttemptExplains(s, a, sent, r, sent' - sent)
    ensures sent' <= sent + PerAttempt(a)
  {
    if a.paging.Some? && a.paging.value.itemsPath != "" {
      if Strip(a.paging.value.itemsPath) == "" {
        return Failure(VALIDATION_FAILED, NoItemsPath), sent;
      }
      ghost var paged;
      r, sent', paged := InvokePaginated(s, Trimmed(a.paging.value), sent);
      return;
    }
    var request := Request(s, None);
    if request.None? {
      return Failure(VALIDATION_FAILED, FetchFailed), sent;
    }
    match s.reply(sent, request.value) {
      case Fault(c) => return Failure(c, FetchFailed), sent + 1;
      case Page(body) => return Success(Unwrapped(body, a.unwrap)), sent + 1;
    }
  }

  /** For one server there is one way an attempt can go. */
  lemma {:induction false} OneAttempt(s: Server, a: Action, sent: nat, r: Response, m: nat, r': Response, m': nat)
    requires AttemptExplains(s, a, sent, r, m) && AttemptExplains(s, a, sent, r', m')
    ensures r == r' && m == m'
  {
    if Paged(a) && Strip(a.paging.value.itemsPath) != "" {
      var p := Trimmed(a.paging.value);
      var x :| Explains(s, p, sent, x, r, m);
      var y :| Explains(s, p, sent, y, r', m');
      OneExplanation(s, p, sent, x, r, m, y, r', m');
    }
  }

  // ---------------------------------------------------------------- retries

  datatype Retry = Retry(maxAttempts: int, on: set<string>, baseDelay: real, maxDelay: real)

  function Delay(retry: Retry, attempt: nat): real {
    var d := retry.baseDelay * (attempt + 1) as real;
    if d <= retry.maxDelay then d else retry.maxDelay
  }

  function Sum(xs: seq<real>): real {
    if xs == [] then 0.0 else Sum(xs[..|xs| - 1]) + xs[|xs| - 1]
  }

  predicate Retryable(retry: Retry, r: Response) {
    r.Failure? && r.errorClass in retry.on
  }

  /** What an attempt that starts after so many requests ends in, and how many it sends. */
  type Course = (nat, Response, nat) -> bool

  ghost function CourseOf(s: Server, a: Action): Course {
    (sent: nat, r: Response, requests: nat) => AttemptExplains(s, a, sent, r, requests)
  }

  /** Attempt `i` got this answer, from where the requests before it had brought the server to where
      its own left it. */
  ghost predicate AttemptAt(c: Course, rs: seq<Response>, at: seq<nat>, i: nat)
    requires |at| == |rs| + 1 && i < |rs|
  {
    at[i] <= at[i + 1] && c(at[i], rs[i], at[i + 1] - at[i])
  }

  /** Attempts one after the other: `at[i]` requests were sent before attempt `i`. */
  ghost predicate Attempts(c: Course, rs: seq<Response>, at: seq<nat>) {
    && |at| == |rs| + 1 && at[0] == 0
    && forall i :: 0 <= i < |rs| ==> AttemptAt(c, rs, at, i)
  }

  /** Every attempt but the last failed retryably and was followed by its delay. */
  ghost predicate Retried(retry: Retry, rs: seq<Response>, sleeps: seq<real>) {
    && |sleeps| == |rs| - 1
    && forall i :: 0 <= i < |rs| - 1 ==> Retryable(retry, rs[i]) && sleeps[i] == Delay(retry, i)
  }

  /** A whole history: it ends with the first response that is a success or not retryable, or with
      the last allowed attempt. */
  ghost predicate History(c: Course, retry: Retry, rs: seq<Response>, at: seq<nat>, sleeps: seq<real>) {
    && 1 <= |rs| <= retry.maxAttempts && Attempts(c, rs, at) && Retried(retry, rs, sleeps)
    && (|rs| == retry.maxAttempts || !Retryable(retry, rs[|rs| - 1]))
  }

  lemma {:induction false} SleepBound(retry: Retry, sleeps: seq<real>)
    requires forall i :: 0 <= i < |sleeps| ==> sleeps[i] == Delay(retry, i)
    ensures Sum(sleeps) <= |sleeps| as real * retry.maxDelay
  {
    if sleeps != [] {
      var n := |sleeps| - 1;
      SleepBound(retry, sleeps[..n]);
      assert Sum(sleeps[..n]) <= n as real * retry.maxDelay;
      assert (n + 1) as real * retry.maxDelay == n as real * retry.maxDelay + retry.maxDelay;
    }
  }

  lemma {:induction false} Monotone(a: int, b: int, n: nat)
    requires a <= b
    ensures a * n <= b * n
  {
  }

  lemma {:induction false} ExtendAttempts(c: Course, rs: seq<Response>, at: seq<nat>, r: Response, sent: nat)
    requires Attempts(c, rs, at) && at[|rs|] <= sent && c(at[|rs|], r, sent - at[|rs|])
    ensures Attempts(c, rs + [r], at + [sent])
  {
    var rs', at' := rs + [r], at + [sent];
    forall i | 0 <= i < |rs'| ensures AttemptAt(c, rs', at', i) {
      if i < |rs| { assert AttemptAt(c, rs, at, i); }
    }
  }

  /** One more attempt, added to the history so far. */
  method NextAttempt(s: Server, a: Action, sent: nat, ghost rs: seq<Response>, ghost at: seq<nat>, ghost attempt: nat)
    returns (response: Response, sent': nat)
    requires Attempts(CourseOf(s, a), rs, at) && sent == at[|rs|] && sent <= attempt * PerAttempt(a)
    ensures Attempts(CourseOf(s, a), rs + [response], at + [sent'])
    ensures sent' <= (attempt + 1) * PerAttempt(a)
  {
    response, sent' := InvokeOnce(s, a, sent);
    ExtendAttempts(CourseOf(s, a), rs, at, response, sent');
    ghost var per := PerAttempt(a);
    assert (attempt + 1) * per == attempt * per + per;
  }

  /** The retry loop returns the last response of its history; all together it sends no more requests
      and sleeps no longer than its configuration says. With fewer than one attempt allowed it
      makes none and has nothing to return. */
  method InvokeWithRetry(s: Server, a: Action, retry: Retry)
    returns (r: Option<Response>, sent: nat, sleeps: seq<real>, ghost rs: seq<Response>, ghost at: seq<nat>)
    ensures r.None? <==> retry.maxAttempts < 1
    ensures r.None? ==> sent == 0 && sleeps == []
    ensures r.Some? ==>
      && History(CourseOf(s, a), retry, rs, at, sleeps) && r == Some(rs[|rs| - 1]) && sent == at[|rs|]
      && sent <= retry.maxAttempts * PerAttempt(a)
      && |sleeps| <= retry.maxAttempts - 1 && Sum(sleeps) <= |sleeps| as real * retry.maxDelay
  {
    r, sent, sleeps, rs, at := None, 0, [], [], [0];
    var attempt := 0;
    while attempt < retry.maxAttempts
      invariant 0 <= attempt == |rs| == |sleeps|
      invariant attempt == 0 || attempt < retry.maxAttempts
      invariant r.None? && Attempts(CourseOf(s, a), rs, at) && sent == at[|rs|]
      invariant forall i :: 0 <= i < attempt ==> Retryable(retry, rs[i]) && sleeps[i] == Delay(retry, i)
      invariant sent <= attempt * PerAttempt(a)
      invariant attempt == 0 ==> sent == 0
    {
      var response;
      response, sent := NextAttempt(s, a, sent, rs, at, attempt);
      rs, at := rs + [response], at + [sent];
      if !Retryable(retry, response) || attempt + 1 >= retry.maxAttempts {
        SleepBound(retry, sleeps);
        Monotone(attempt + 1, retry.maxAttempts, PerAttempt(a));
        return Some(response), sent, sleeps, rs, at;
      }
      sleeps := sleeps + [Delay(retry, attempt)];
      attempt := attempt + 1;
    }
  }

  /** From one place there is one way an attempt can go. */
  ghost predicate Determined(c: Course) {
    forall sent: nat, r, m: nat, r', m': nat :: c(sent, r, m) && c(sent, r', m') ==> r == r' && m == m'
  }

  lemma {:induction false} AttemptsAgree(c: Course, rs: seq<Response>, at: seq<nat>, rs': seq<Response>, at': seq<nat>, i: nat)
    requires Determined(c) && Attempts(c, rs, at) && Attempts(c, rs', at') && i <= |rs| && i <= |rs'|
    ensures at[i] == at'[i]
    ensures i < |rs| && i < |rs'| ==> rs[i] == rs'[i]
  {
    if i > 0 {
      AttemptsAgree(c, rs, at, rs', at', i - 1);
      assert AttemptAt(c, rs, at, i - 1) && AttemptAt(c, rs', at', i - 1);
    }
    if i < |rs| && i < |rs'| {
      assert AttemptAt(c, rs, at, i) && AttemptAt(c, rs', at', i);
    }
  }

  lemma {:induction false} HistoriesAgree(c: Course, retry: Retry, rs: seq<Response>, at: seq<nat>, sleeps: seq<real>,
                                          rs': seq<Response>, at': seq<nat>, sleeps': seq<real>)
    requires Determined(c) && History(c, retry, rs, at, sleeps) && History(c, retry, rs', at', sleeps')
    ensures rs == rs' && at == at' && sleeps == sleeps'
  {
    forall i | 0 <= i <= |rs| && i <= |rs'|
      ensures at[i] == at'[i] && (i < |rs| && i < |rs'| ==> rs[i] == rs'[i])
    {
      AttemptsAgree(c, rs, at, rs', at', i);
    }
    assert |rs| == |rs'|;
  }

  /** For one server there is exactly one history: every response, every request count and every
      sleep is determined. */
  lemma {:induction false} OneHistory(s: Server, a: Action, retry: Retry, rs: seq<Response>, at: seq<nat>, sleeps: seq<real>,
                                      rs': seq<Response>, at': seq<nat>, sleeps': seq<real>)
    requires History(CourseOf(s, a), retry, rs, at, sleeps) && History(CourseOf(s, a), retry, rs', at', sleeps')
    ensures rs == rs' && at == at' && sleeps == sleeps'
  {
    forall sent: nat, r, m: nat, r', m': nat | AttemptExplains(s, a, sent, r, m) && AttemptExplains(s, a, sent, r', m')
      ensures r == r' && m == m'
    {
      OneAttempt(s, a, sent, r, m, r', m');
    }
    HistoriesAgree(CourseOf(s, a), retry, rs, at, sleeps, rs', at', sleeps');
  }
}
