/** The forwarding pattern every non-login handler follows, written once as
    data: a rule names the verb, the resource path, the route parameter
    appended to it, the query-parameter groups passed on, whether the inbound
    body is sent, and whether success answers 201. `Forward` is the reference
    definition the hand-written handlers of each controller are proved equal
    to. */
module Forwarding {
  import opened Json
  import opened Http
  import opened QueryString

  datatype Rule = Rule(
    verb: Verb,
    resource: string,
    pathParam: Option<string>,
    groups: seq<seq<string>>,
    forwardsBody: bool,
    created: bool)

  /** The upstream URL: base, resource, `/` and the route parameter when the
      rule has one, then the query suffix built from the rule's groups. */
  function Target(rule: Rule, req: Request): string
  {
    BASE_URL + rule.resource
    + (match rule.pathParam
       case Some(name) => "/" + PathParam(req, name)
       case None => "")
    + Suffix(QueryParams(rule.groups, req.query))
  }

  lemma TargetWithoutPathParam(rule: Rule, req: Request)
    requires rule.pathParam.None?
    ensures Target(rule, req) == BASE_URL + rule.resource + Suffix(QueryParams(rule.groups, req.query))
  {
    assert BASE_URL + rule.resource + "" == BASE_URL + rule.resource;
  }

  /** With a route parameter the URL is base, `resource/` written as one
      literal `lit`, the parameter and the suffix. */
  lemma TargetWithPathParam(rule: Rule, req: Request, lit: string)
    requires rule.pathParam.Some? && lit == rule.resource + "/"
    ensures Target(rule, req) ==
      BASE_URL + lit + PathParam(req, rule.pathParam.value) + Suffix(QueryParams(rule.groups, req.query))
  {
    AppendAssociates(BASE_URL, rule.resource, "/");
    AppendAssociates(BASE_URL + rule.resource, "/", PathParam(req, rule.pathParam.value));
  }

  /** With the resource, the rule's names and their values free of `?`, the
      target holds exactly one `?` when something is forwarded and none
      otherwise. */
  lemma TargetQuestionMarks(rule: Rule, req: Request)
    requires rule.pathParam.None? && '?' !in rule.resource
    requires forall n :: n in Names(rule.groups) ==> '?' !in n && (n in req.query ==> '?' !in req.query[n])
    ensures Occurrences(Target(rule, req), '?') == if QueryParams(rule.groups, req.query) == [] then 0 else 1
  {
    var ps := QueryParams(rule.groups, req.query);
    TargetWithoutPathParam(rule, req);
    QueryParamsVerbatim(rule.groups, req.query);
    forall i | 0 <= i < |ps|
      ensures '?' !in ps[i].name && '?' !in ps[i].value
    {
      assert ps[i] in ps;
    }
    var prefix := BASE_URL + rule.resource;
    assert '?' !in prefix by {
      BaseUrlHasNoQuery();
    }
    SuffixedUrlQuestionMarks(Target(rule, req), prefix, ps);
  }

  /** With the rule's names free of `=` and `&` and their values free of
      `&`, `ParseQuery` reads back from the query string exactly the
      forwarded parameters, in order and verbatim. */
  lemma TargetReadBack(rule: Rule, req: Request)
    requires rule.pathParam.None?
    requires forall n :: n in Names(rule.groups) ==> '=' !in n && '&' !in n && (n in req.query ==> '&' !in req.query[n])
    ensures var ps := QueryParams(rule.groups, req.query);
      ps != [] ==>
        && Target(rule, req) == BASE_URL + rule.resource + "?" + Join(Renders(ps), "&")
        && ParseQuery(Join(Renders(ps), "&")) == ps
  {
    var ps := QueryParams(rule.groups, req.query);
    TargetWithoutPathParam(rule, req);
    QueryParamsVerbatim(rule.groups, req.query);
    forall i | 0 <= i < |ps|
      ensures Separable(ps[i])
    {
      assert ps[i] in ps;
    }
    if ps != [] {
      SuffixedUrlReadBack(BASE_URL + rule.resource, ps);
    }
  }

  /** One request forwarded by `rule`: exactly one upstream call with the
      rule's verb, carrying `req.body` unchanged exactly when the rule says
      so, and the outcome relayed as 201/200 with the upstream data or as 500
      with the failure's message. */
  function Forward(rule: Rule, req: Request, o: Outcome): (ex: Exchange)
    ensures ex.sent.Some? && ex.sent.value.verb == rule.verb && ex.sent.value.url == Target(rule, req)
    ensures ex.sent.value.body.Some? <==> rule.forwardsBody
    ensures ex.sent.value.body.Some? ==> ex.sent.value.body.value == req.body
    ensures o.Success? ==> ex.response == Response(if rule.created then 201 else 200, o.data)
    ensures o.Failure? ==> ex.response.status == 500
    ensures o.Failure? ==> Member(ex.response.body, "error") == Some(Str(o.message))
  {
    Exchange(
      Some(UpstreamRequest(rule.verb, Target(rule, req), if rule.forwardsBody then Some(req.body) else None)),
      Relay(o, rule.created))
  }

  /** The request is fixed before the outcome is known: what is sent upstream
      does not depend on how the call settles. */
  lemma SentBeforeOutcome(rule: Rule, req: Request, o1: Outcome, o2: Outcome)
    ensures Forward(rule, req, o1).sent == Forward(rule, req, o2).sent
  {
  }

  /** Query parameters outside the rule's groups never reach the upstream
      URL: two requests with the same route parameters whose queries agree on
      the rule's names are forwarded to the same URL. */
  lemma TargetReadsOnlyRuleNames(rule: Rule, r1: Request, r2: Request)
    requires r1.params == r2.params
    requires forall n :: n in Names(rule.groups) ==> AgreeOn(r1.query, r2.query, n)
    ensures Target(rule, r1) == Target(rule, r2)
  {
    QueryParamsReadOnlyNames(rule.groups, r1.query, r2.query);
  }
}
