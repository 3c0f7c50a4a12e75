/**
 The guarded requests of sandbox/broker.py: a body read under a byte cap, the
 redirect loop, and what every request that leaves the host has passed.

 URL parsing and joining, glob matching, stripping and name resolution are
 functions of a `Web` value; the other servers are a function from the requests
 sent so far to the reply to the last of them.  Upper and lower case are ASCII.
 */
module Redirects {
  import opened Prelude
  import opened TokenBucket

  type Byte = bv8

  datatype Parts = Parts(scheme: string, host: string, path: string)

  datatype Flags = Flags(isPrivate: bool, loopback: bool, linkLocal: bool, multicast: bool, unspecified: bool)

  /** One result of name resolution; `Unusable` is one that is no IP address. */
  datatype Address = Ip4(flags: Flags) | Ip6(flags: Flags, mapped: Option<Flags>) | Unusable

  datatype Web = Web(
    parse: string -> Parts,
    glob: (string, string) -> bool,
    join: (string, string) -> string,
    strip: string -> string,
    // name resolution may answer differently from one request to the next
    resolve: (string, nat) -> Option<seq<Address>>)

  type Headers = map<string, string>

  datatype Request = Request(verb: string, url: string, headers: Headers, body: Option<string>)

  /** What the other side does: nothing usable, or a response in chunks that may break off. */
  datatype Reply =
    | Unreachable(error: string)
    | Response(status: int, headers: seq<(string, string)>, chunks: seq<seq<Byte>>, failure: Option<string>)

  datatype Page =
    | Failed(error: string)
    | Page(status: int, headers: seq<(string, string)>, body: seq<Byte>, truncated: bool)

  datatype Reason =
    | SchemeNotAllowed | MethodNotAllowed | HostNotAllowed | PathNotAllowed | HeaderProtected
    | UnsupportedScheme | Unresolved | BlockedAddress | UnknownIntegration | PublicDisabled

  datatype Outcome =
    | Denied(reason: Reason, verb: string, url: string)
    | RateLimited
    | UnsupportedRedirect(status: int)
    | TooManyRedirects
    | Done(page: Page)

  datatype Auth = Bearer | HeaderAuth(name: string) | NoAuth

  datatype Policy = Policy(
    auth: Auth, token: string, hosts: seq<string>, verbs: seq<string>, paths: seq<string>,
    schemes: seq<string>, protectedHeaders: seq<string>, defaults: Headers, maxBytes: nat)

  type Guard = (string, string, nat) -> Option<Outcome>
  type Server = seq<Request> -> Reply

  const MAX_REDIRECT_HOPS: nat := 5
  const REDIRECT_STATUSES := {301, 302, 303, 307, 308}

  // ---------------------------------------------------------------- case

  function UpperChar(c: char): char {
    if 'a' <= c <= 'z' then c - 'a' + 'A' else c
  }

  function LowerChar(c: char): char {
    if 'A' <= c <= 'Z' then c - 'A' + 'a' else c
  }

  function Upper(s: string): string {
    seq(|s|, i requires 0 <= i < |s| => UpperChar(s[i]))
  }

  function Lower(s: string): string {
    seq(|s|, i requires 0 <= i < |s| => LowerChar(s[i]))
  }

  lemma UpperTwice(s: string)
    ensures Upper(Upper(s)) == Upper(s)
  {
    forall i | 0 <= i < |s| ensures Upper(Upper(s))[i] == Upper(s)[i] {}
  }

  // ---------------------------------------------------------------- the byte cap

  /**
   What one request yields: the first `max` bytes of the response and whether
   any were cut off; an error is seen only when the cap did not end the reading.
   */
  function Fetch(reply: Reply, max: nat): Page {
    match reply
    case Unreachable(error) => Failed(error)
    case Response(status, headers, chunks, failure) =>
      var all := Flat(chunks);
      if failure.Some? && |all| <= max then Failed(failure.value)
      else Page(status, headers, all[..Min(max, |all|)], |all| > max)
  }

  method Execute(reply: Reply, max: nat) returns (page: Page)
    ensures page == Fetch(reply, max)
  {
    match reply
    case Unreachable(error) => page := Failed(error);
    case Response(status, headers, chunks, failure) =>
      var raw: seq<Byte> := [];
      var total: nat := 0;
      var truncated := false;
      var i := 0;
      while i < |chunks| && !truncated
        invariant 0 <= i <= |chunks| && total == |raw| <= max
        invariant !truncated ==> raw == Flat(chunks[..i])
        invariant truncated ==> max < |Flat(chunks)| && raw == Flat(chunks)[..max]
        decreases |chunks| - i, !truncated
      {
        var chunk := chunks[i];
        FlatNext(chunks, i);
        if chunk != [] {
          if total + |chunk| > max {
            var keep := max - total;
            if keep > 0 {
              raw := raw + chunk[..keep];
              total := total + keep;
            }
            truncated := true;
          } else {
            raw := raw + chunk;
            total := total + |chunk|;
          }
        }
        i := i + 1;
      }
      assert !truncated ==> chunks[..i] == chunks;
      if !truncated && failure.Some? {
        return Failed(failure.value);
      }
      page := Page(status, headers, raw, truncated);
  }

  // ---------------------------------------------------------------- redirect targets

  /** The value of the first header that is called `location` in any case. */
  function Location(headers: seq<(string, string)>): Option<string> {
    if headers == [] then None
    else if Lower(headers[0].0) == "location" then Some(headers[0].1)
    else Location(headers[1..])
  }

  function Target(web: Web, base: string, page: Page): Option<string> {
    if page.Failed? || page.status !in REDIRECT_STATUSES then None
    else
      match Location(page.headers)
      case None => None
      case Some(raw) => if web.strip(raw) == "" then None else Some(web.join(base, web.strip(raw)))
  }

  method RedirectTarget(web: Web, base: string, page: Page) returns (target: Option<string>)
    requires page.Page?
    ensures target == Target(web, base, page)
  {
    if page.status !in REDIRECT_STATUSES {
      return None;
    }
    var i := 0;
    while i < |page.headers| && Lower(page.headers[i].0) != "location"
      invariant 0 <= i <= |page.headers|
      invariant Location(page.headers) == Location(page.headers[i..])
    {
      i := i + 1;
    }
    if i == |page.headers| {
      return None;
    }
    var location := web.strip(page.headers[i].1);
    target := if location == "" then None else Some(web.join(base, location));
  }

  // ---------------------------------------------------------------- the redirect loop

  /** The page that answers the last request of a run. */
  function Answer(server: Server, max: nat, sent: seq<Request>): Page {
    Fetch(server(sent), max)
  }

  /** `sent` is a run of requests: it starts with `first`, and each next one follows a redirect the guard let through. */
  ghost predicate Follows(web: Web, server: Server, guard: Guard, max: nat, first: Request, sent: seq<Request>) {
    && 0 < |sent| <= MAX_REDIRECT_HOPS + 1
    && sent[0] == first
    && forall i | 0 < i < |sent| :: Hop(web, server, guard, max, first, sent, i)
  }

  ghost predicate Hop(web: Web, server: Server, guard: Guard, max: nat, first: Request, sent: seq<Request>, i: nat)
    requires 0 < i < |sent|
  {
    && first.verb == "GET"
    && Target(web, sent[i - 1].url, Answer(server, max, sent[..i])) == Some(sent[i].url)
    && guard(sent[i].url, first.verb, i) == None
    && sent[i] == first.(url := sent[i].url)
  }

  /** The run ends here, with this outcome. */
  ghost predicate Ends(web: Web, server: Server, guard: Guard, max: nat, first: Request, sent: seq<Request>, outcome: Outcome)
    requires sent != []
  {
    var page := Answer(server, max, sent);
    match Target(web, sent[|sent| - 1].url, page)
    case None => outcome == Done(page)
    case Some(next) =>
      if first.verb != "GET" then outcome == UnsupportedRedirect(page.status)
      else if |sent| > MAX_REDIRECT_HOPS then outcome == TooManyRedirects
      else guard(next, first.verb, |sent|) == Some(outcome)
  }

  method ExecuteWithRedirects(web: Web, server: Server, guard: Guard, max: nat,
                              verb: string, url: string, headers: Headers, body: Option<string>)
    returns (outcome: Outcome, sent: seq<Request>)
    ensures Follows(web, server, guard, max, Request(Upper(verb), url, headers, body), sent)
    ensures Ends(web, server, guard, max, Request(Upper(verb), url, headers, body), sent, outcome)
  {
    var currentMethod := Upper(verb);
    var currentUrl := url;
    var redirectsFollowed := 0;
    ghost var first := Request(currentMethod, url, headers, body);
    sent := [];
    while true
      invariant redirectsFollowed == |sent| <= MAX_REDIRECT_HOPS
      invariant sent == [] ==> currentUrl == url
      invariant Follows(web, server, guard, max, first, sent + [Request(currentMethod, currentUrl, headers, body)])
      decreases MAX_REDIRECT_HOPS - redirectsFollowed
    {
      sent := sent + [Request(currentMethod, currentUrl, headers, body)];
      var page := Execute(server(sent), max);
      if page.Failed? {
        return Done(page), sent;
      }
      var next := RedirectTarget(web, currentUrl, page);
      if next == None {
        return Done(page), sent;
      }
      if currentMethod != "GET" {
        return UnsupportedRedirect(page.status), sent;
      }
      redirectsFollowed := redirectsFollowed + 1;
      if redirectsFollowed > MAX_REDIRECT_HOPS {
        return TooManyRedirects, sent;
      }
      var denial := guard(next.value, currentMethod, |sent|);
      if denial.Some? {
        return denial.value, sent;
      }
      currentUrl := next.value;
      FollowsOneMore(web, server, guard, max, first, sent, currentUrl);
    }
  }

  lemma FollowsOneMore(web: Web, server: Server, guard: Guard, max: nat, first: Request, sent: seq<Request>, next: string)
    requires Follows(web, server, guard, max, first, sent)
    requires |sent| <= MAX_REDIRECT_HOPS && first.verb == "GET"
    requires Target(web, sent[|sent| - 1].url, Answer(server, max, sent)) == Some(next)
    requires guard(next, first.verb, |sent|) == None
    ensures Follows(web, server, guard, max, first, sent + [first.(url := next)])
  {
    var longer := sent + [first.(url := next)];
    forall i | 0 < i < |longer| ensures Hop(web, server, guard, max, first, longer, i) {
      assert longer[..i] == sent[..i];
      if i == |sent| {
        assert sent[..i] == sent;
      } else {
        assert Hop(web, server, guard, max, first, sent, i);
      }
    }
  }

  /** The two predicates leave nothing open: a run and its outcome are determined. */
  lemma RunDetermined(web: Web, server: Server, guard: Guard, max: nat, first: Request,
                      sent: seq<Request>, outcome: Outcome, sent': seq<Request>, outcome': Outcome)
    requires Follows(web, server, guard, max, first, sent) && Ends(web, server, guard, max, first, sent, outcome)
    requires Follows(web, server, guard, max, first, sent') && Ends(web, server, guard, max, first, sent', outcome')
    ensures sent == sent' && outcome == outcome'
  {
    if |sent| <= |sent'| {
      ShorterIsPrefix(web, server, guard, max, first, sent, sent', outcome, |sent|);
    } else {
      ShorterIsPrefix(web, server, guard, max, first, sent', sent, outcome', |sent'|);
    }
  }

  lemma {:induction false} ShorterIsPrefix(web: Web, server: Server, guard: Guard, max: nat, first: Request,
                                           sent: seq<Request>, longer: seq<Request>, outcome: Outcome, k: nat)
    requires Follows(web, server, guard, max, first, sent) && Follows(web, server, guard, max, first, longer)
    requires k <= |sent| <= |longer|
    ensures sent[..k] == longer[..k]
    ensures k == |sent| && Ends(web, server, guard, max, first, sent, outcome) ==> |longer| == |sent| && sent == longer
    decreases k
  {
    if k > 0 {
      ShorterIsPrefix(web, server, guard, max, first, sent, longer, outcome, k - 1);
      assert sent[k - 1] == longer[k - 1] by {
        if k > 1 {
          assert sent[k - 2] == sent[..k - 1][k - 2] == longer[..k - 1][k - 2];
          assert Hop(web, server, guard, max, first, sent, k - 1) && Hop(web, server, guard, max, first, longer, k - 1);
        }
      }
      assert sent[..k] == sent[..k - 1] + [sent[k - 1]];
      assert longer[..k] == longer[..k - 1] + [longer[k - 1]];
      if k == |sent| {
        assert sent[..k] == sent;
        if |longer| > k {
          assert Hop(web, server, guard, max, first, longer, k);
        }
      }
    }
  }

  // ---------------------------------------------------------------- policy

  predicate AnyMatch(web: Web, text: string, patterns: seq<string>) {
    exists p | p in patterns :: web.glob(text, p)
  }

  /** No header the model supplied is protected, whatever its case. */
  predicate NoProtected(policy: Policy, headers: Headers) {
    forall h, p | h in headers && p in policy.protectedHeaders :: Lower(h) != Lower(p)
  }

  predicate Allowed(web: Web, policy: Policy, verb: string, url: string, headers: Headers) {
    var parts := web.parse(url);
    && Lower(parts.scheme) in policy.schemes
    && Upper(verb) in policy.verbs
    && AnyMatch(web, parts.host, policy.hosts)
    && AnyMatch(web, if parts.path == "" then "/" else parts.path, policy.paths)
    && NoProtected(policy, headers)
  }

  /** `_validate_or_deny`: the first check that fails gives the reason. */
  function ValidateOrDeny(web: Web, policy: Policy, verb: string, url: string, headers: Headers): (denial: Option<Outcome>)
    ensures denial == None <==> Allowed(web, policy, verb, url, headers)
    ensures denial.Some? ==> denial.value.Denied? && denial.value.verb == Upper(verb) && denial.value.url == url
  {
    var parts := web.parse(url);
    if Lower(parts.scheme) !in policy.schemes then Some(Denied(SchemeNotAllowed, Upper(verb), url))
    else if Upper(verb) !in policy.verbs then Some(Denied(MethodNotAllowed, Upper(verb), url))
    else if !AnyMatch(web, parts.host, policy.hosts) then Some(Denied(HostNotAllowed, Upper(verb), url))
    else if !AnyMatch(web, if parts.path == "" then "/" else parts.path, policy.paths) then
      Some(Denied(PathNotAllowed, Upper(verb), url))
    else if !NoProtected(policy, headers) then Some(Denied(HeaderProtected, Upper(verb), url))
    else None
  }

  function AuthHeader(auth: Auth): Option<string> {
    match auth
    case Bearer => Some("Authorization")
    case HeaderAuth(name) => Some(name)
    case NoAuth => None
  }

  function Inject(policy: Policy, headers: Headers): Headers {
    var merged := policy.defaults + headers;
    match policy.auth
    case Bearer => merged["Authorization" := "Bearer " + policy.token]
    case HeaderAuth(name) => merged[name := policy.token]
    case NoAuth => merged
  }

  /**
   Of an allowed request with a protected credential header, every header the
   model supplied goes out as supplied, and the credential header is the broker's.
   */
  lemma InjectKeepsModelHeaders(web: Web, policy: Policy, verb: string, url: string, headers: Headers)
    requires Allowed(web, policy, verb, url, headers)
    requires match AuthHeader(policy.auth) case Some(name) => name in policy.protectedHeaders case None => true
    ensures var sent := Inject(policy, headers);
            && (forall h | h in headers :: h in sent && sent[h] == headers[h])
            && (forall h | h in sent && h !in headers && AuthHeader(policy.auth) != Some(h) ::
                  h in policy.defaults && sent[h] == policy.defaults[h])
            && (forall h, name | h in headers && AuthHeader(policy.auth) == Some(name) :: Lower(h) != Lower(name))
  {
  }

  // ---------------------------------------------------------------- public addresses

  predicate Bad(f: Flags) {
    f.isPrivate || f.loopback || f.linkLocal || f.multicast || f.unspecified
  }

  /** An IPv4 address written as an IPv6 one is judged as IPv4. */
  predicate Blocked(a: Address) {
    match a
    case Ip4(flags) => Bad(flags)
    case Ip6(flags, None) => Bad(flags)
    case Ip6(_, Some(mapped)) => Bad(mapped)
    case Unusable => false
  }

  predicate Public(web: Web, url: string, moment: nat) {
    var parts := web.parse(url);
    && Lower(parts.scheme) in {"http", "https"}
    && parts.host != ""
    && match web.resolve(parts.host, moment)
       case None => false
       case Some(infos) => forall i | 0 <= i < |infos| :: !Blocked(infos[i])
  }

  method SsrfOrDeny(web: Web, verb: string, url: string, moment: nat) returns (denial: Option<Outcome>)
    ensures denial == SsrfDenial(web, verb, url, moment)
  {
    var parts := web.parse(url);
    if Lower(parts.scheme) !in {"http", "https"} {
      return Some(Denied(UnsupportedScheme, Upper(verb), url));
    }
    if parts.host == "" {
      return Some(Denied(Unresolved, Upper(verb), url));
    }
    var resolved := web.resolve(parts.host, moment);
    if resolved == None {
      return Some(Denied(Unresolved, Upper(verb), url));
    }
    var i := 0;
    while i < |resolved.value|
      invariant 0 <= i <= |resolved.value|
      invariant forall k | 0 <= k < i :: !Blocked(resolved.value[k])
    {
      if Blocked(resolved.value[i]) {
        return Some(Denied(BlockedAddress, Upper(verb), url));
      }
      i := i + 1;
    }
    denial := None;
  }

  function SsrfDenial(web: Web, verb: string, url: string, moment: nat): (denial: Option<Outcome>)
    ensures denial == None <==> Public(web, url, moment)
    ensures denial.Some? ==> denial.value.Denied?
  {
    if Public(web, url, moment) then None
    else
      var parts := web.parse(url);
      Some(Denied(
        if Lower(parts.scheme) !in {"http", "https"} then UnsupportedScheme
        else if parts.host == "" || web.resolve(parts.host, moment) == None then Unresolved
        else BlockedAddress,
        Upper(verb), url))
  }

  // ---------------------------------------------------------------- the two kinds of call

  function PolicyGuard(web: Web, policy: Policy, headers: Headers): Guard {
    (url: string, verb: string, moment: nat) => ValidateOrDeny(web, policy, verb, url, headers)
  }

  function PublicGuard(web: Web, validated: Option<Policy>, headers: Headers): Guard {
    (url: string, verb: string, moment: nat) =>
      var denial := if validated.Some? then ValidateOrDeny(web, validated.value, verb, url, headers) else None;
      if denial.Some? then denial else SsrfDenial(web, verb, url, moment)
  }

  /** `sent` went out with the credential of `policy`, and all of it was allowed to. */
  ghost predicate CredentialedWithin(web: Web, policy: Policy, headers: Headers, sent: seq<Request>) {
    && |sent| <= MAX_REDIRECT_HOPS + 1
    && forall i | 0 <= i < |sent| ::
         && Allowed(web, policy, sent[i].verb, sent[i].url, headers)
         && sent[i].headers == Inject(policy, headers)
         && (i > 0 ==> sent[i].verb == "GET")
  }

  /** Nothing went out to an address that was not public when it was checked, and no credential with it. */
  ghost predicate PublicWithin(web: Web, validated: Option<Policy>, headers: Headers, sent: seq<Request>) {
    && |sent| <= MAX_REDIRECT_HOPS + 1
    && forall i | 0 <= i < |sent| ::
         && Public(web, sent[i].url, i)
         && (validated.Some? ==> Allowed(web, validated.value, sent[i].verb, sent[i].url, headers))
         && sent[i].headers == headers
         && (i > 0 ==> sent[i].verb == "GET")
  }

  lemma PolicyRunWithin(web: Web, server: Server, policy: Policy, headers: Headers, first: Request, sent: seq<Request>)
    requires Follows(web, server, PolicyGuard(web, policy, headers), policy.maxBytes, first, sent)
    requires Allowed(web, policy, first.verb, first.url, headers) && first.headers == Inject(policy, headers)
    ensures CredentialedWithin(web, policy, headers, sent)
  {
    forall i | 0 < i < |sent|
      ensures Allowed(web, policy, sent[i].verb, sent[i].url, headers)
      ensures sent[i].headers == first.headers && sent[i].verb == "GET"
    {
      assert Hop(web, server, PolicyGuard(web, policy, headers), policy.maxBytes, first, sent, i);
      assert PolicyGuard(web, policy, headers)(sent[i].url, first.verb, i) == None;
    }
  }

  lemma PublicRunWithin(web: Web, server: Server, validated: Option<Policy>, headers: Headers, max: nat,
                        first: Request, sent: seq<Request>)
    requires Follows(web, server, PublicGuard(web, validated, headers), max, first, sent)
    requires Public(web, first.url, 0) && first.headers == headers
    requires validated.Some? ==> Allowed(web, validated.value, first.verb, first.url, headers)
    ensures PublicWithin(web, validated, headers, sent)
  {
    forall i | 0 < i < |sent|
      ensures Public(web, sent[i].url, i)
      ensures validated.Some? ==> Allowed(web, validated.value, sent[i].verb, sent[i].url, headers)
      ensures sent[i].headers == first.headers && sent[i].verb == "GET"
    {
      assert Hop(web, server, PublicGuard(web, validated, headers), max, first, sent, i);
      if validated.Some? {
        assert ValidateOrDeny(web, validated.value, first.verb, sent[i].url, headers) == None;
      }
      assert SsrfDenial(web, first.verb, sent[i].url, i) == None;
    }
  }

  /** What a request under a policy comes to: a denial, the limiter's refusal, or the run along its redirects. */
  ghost predicate PolicyOutcome(web: Web, server: Server, policy: Policy, verb: string, url: string, headers: Headers,
                                body: Option<string>, admitted: bool, outcome: Outcome, sent: seq<Request>)
  {
    var denial := ValidateOrDeny(web, policy, verb, url, headers);
    var guard := PolicyGuard(web, policy, headers);
    var first := Request(Upper(verb), url, Inject(policy, headers), body);
    if denial.Some? then outcome == denial.value && sent == []
    else if !admitted then outcome == RateLimited && sent == []
    else
      && Follows(web, server, guard, policy.maxBytes, first, sent)
      && Ends(web, server, guard, policy.maxBytes, first, sent, outcome)
  }

  /** What a request without a credential comes to. */
  ghost predicate PublicOutcome(web: Web, server: Server, validated: Option<Policy>, verb: string, url: string,
                                headers: Headers, body: Option<string>, maxBytes: nat, outcome: Outcome, sent: seq<Request>)
  {
    var guard := PublicGuard(web, validated, headers);
    var first := Request(Upper(verb), url, headers, body);
    var refused := guard(url, verb, 0);
    if refused.Some? then outcome == refused.value && sent == []
    else
      && Follows(web, server, guard, maxBytes, first, sent)
      && Ends(web, server, guard, maxBytes, first, sent, outcome)
  }

  /** `_execute_policy_request`; without a limiter there is no rate limit. */
  method ExecutePolicyRequest(web: Web, server: Server, policy: Policy, verb: string, url: string,
                              headers: Headers, body: Option<string>, limiter: Limiter?, now: real)
    returns (outcome: Outcome, sent: seq<Request>)
    modifies limiter
    ensures CredentialedWithin(web, policy, headers, sent)
    ensures PolicyOutcome(web, server, policy, verb, url, headers, body,
                          limiter == null || old(Consumed(limiter.State(), now).1), outcome, sent)
    ensures limiter != null ==>
              limiter.State() == if Allowed(web, policy, verb, url, headers) then Consumed(old(limiter.State()), now).0
                                 else old(limiter.State())
  {
    var denial := ValidateOrDeny(web, policy, verb, url, headers);
    if denial.Some? {
      return denial.value, [];
    }
    if limiter != null {
      var accepted := limiter.Consume(now);
      if !accepted {
        return RateLimited, [];
      }
    }
    outcome, sent := ExecuteWithRedirects(web, server, PolicyGuard(web, policy, headers), policy.maxBytes,
                                          verb, url, Inject(policy, headers), body);
    UpperTwice(verb);
    PolicyRunWithin(web, server, policy, headers, Request(Upper(verb), url, Inject(policy, headers), body), sent);
  }

  /** `_execute_public_request` with both SSRF checks on, as both callers pass them; `validated` is the policy enforced, if any. */
  method ExecutePublicRequest(web: Web, server: Server, validated: Option<Policy>, verb: string, url: string,
                              headers: Headers, body: Option<string>, maxBytes: nat)
    returns (outcome: Outcome, sent: seq<Request>)
    ensures PublicWithin(web, validated, headers, sent)
    ensures PublicOutcome(web, server, validated, verb, url, headers, body, maxBytes, outcome, sent)
  {
    if validated.Some? {
      var denial := ValidateOrDeny(web, validated.value, verb, url, headers);
      if denial.Some? {
        return denial.value, [];
      }
    }
    var blocked := SsrfOrDeny(web, verb, url, 0);
    if blocked.Some? {
      return blocked.value, [];
    }
    outcome, sent := ExecuteWithRedirects(web, server, PublicGuard(web, validated, headers), maxBytes,
                                          verb, url, headers, body);
    UpperTwice(verb);
    PublicRunWithin(web, server, validated, headers, maxBytes, Request(Upper(verb), url, headers, body), sent);
  }

  // ---------------------------------------------------------------- the http_request action

  /** `_build_public_policy` for the configured methods and cap. */
  function PublicPolicy(verbs: seq<string>, maxBytes: nat): Policy {
    Policy(NoAuth, "", ["*"], verbs, ["/*"], ["http", "https"], ["Authorization"], map[], maxBytes)
  }

  /**
   `_handle_http_request` after parsing: a named integration is the only way a
   credential leaves, and then only under that integration's policy.
   */
  method HandleHttpRequest(web: Web, server: Server, policies: map<string, Policy>, limiters: map<string, Limiter>,
                           publicEnabled: bool, publicVerbs: seq<string>, publicMax: nat,
                           integration: Option<string>, verb: string, url: string,
                           headers: Headers, body: Option<string>, now: real)
    returns (outcome: Outcome, sent: seq<Request>)
    modifies limiters.Values
    ensures match integration
            case Some(name) =>
              if name in policies then
                && CredentialedWithin(web, policies[name], headers, sent)
                && PolicyOutcome(web, server, policies[name], verb, url, headers, body,
                                 name in limiters ==> old(Consumed(limiters[name].State(), now).1), outcome, sent)
                && (name in limiters ==>
                      limiters[name].State() ==
                        if Allowed(web, policies[name], verb, url, headers) then Consumed(old(limiters[name].State()), now).0
                        else old(limiters[name].State()))
              else sent == [] && outcome == Denied(UnknownIntegration, Upper(verb), url)
            case None =>
              if publicEnabled then
                var policy := PublicPolicy(publicVerbs, publicMax);
                && PublicWithin(web, Some(policy), headers, sent)
                && PublicOutcome(web, server, Some(policy), verb, url, headers, body, publicMax, outcome, sent)
              else sent == [] && outcome == Denied(PublicDisabled, Upper(verb), url)
    ensures forall l | l in limiters.Values && (integration.None? || integration.value !in limiters || limiters[integration.value] != l) ::
              l.State() == old(l.State())
  {
    match integration
    case Some(name) =>
      if name !in policies {
        return Denied(UnknownIntegration, Upper(verb), url), [];
      }
      outcome, sent := ExecutePolicyRequest(web, server, policies[name], verb, url, headers, body,
                                            if name in limiters then limiters[name] else null, now);
    case None =>
      if !publicEnabled {
        return Denied(PublicDisabled, Upper(verb), url), [];
      }
      outcome, sent := ExecutePublicRequest(web, server, Some(PublicPolicy(publicVerbs, publicMax)),
                                            verb, url, headers, body, publicMax);
  }
}
