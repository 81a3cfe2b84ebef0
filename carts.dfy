/** The cart controller: seven handlers forwarding to `/carts` upstream. */
module Carts {
  import opened Json
  import opened Http
  import opened QueryString
  import opened Forwarding

  /** The date range, forwarded only when both bounds are present. */
  const DateRange: seq<string> := ["startdate", "enddate"]

  /** getAllCarts forwards the date range, then `limit`, then `sort`. */
  const AllCartsGroups: seq<seq<string>> := [DateRange, ["limit"], ["sort"]]

  // The forwarding table of the cart controller.
  const GetAllCartsRule := Rule(Get, "/carts", None, AllCartsGroups, false, false)
  const GetCartByIdRule := Rule(Get, "/carts", Some("id"), [], false, false)
  const GetUserCartsRule := Rule(Get, "/carts/user", Some("userId"), [DateRange], false, false)
  const AddCartRule := Rule(Post, "/carts", None, [], true, true)
  const UpdateCartRule := Rule(Put, "/carts", Some("id"), [], true, false)
  const PatchCartRule := Rule(Patch, "/carts", Some("id"), [], true, false)
  const DeleteCartRule := Rule(Delete, "/carts", Some("id"), [], false, false)

  const CartRules := [GetAllCartsRule, GetCartByIdRule, GetUserCartsRule, AddCartRule,
                      UpdateCartRule, PatchCartRule, DeleteCartRule]

  /** What getAllCarts forwards, group by group. */
  lemma AllCartsGroupsInTurn(query: Query)
    ensures QueryParams(AllCartsGroups, query) ==
      (if Present(query, "startdate") && Present(query, "enddate")
       then [Param("startdate", query["startdate"]), Param("enddate", query["enddate"])] else [])
      + (if Present(query, "limit") then [Param("limit", query["limit"])] else [])
      + (if Present(query, "sort") then [Param("sort", query["sort"])] else [])
  {
    assert AllCartsGroups == [DateRange] + [["limit"]] + [["sort"]];
    QueryParamsConcat([DateRange] + [["limit"]], [["sort"]], query);
    QueryParamsConcat([DateRange], [["limit"]], query);
    TwoNameGroup("startdate", "enddate", query);
    OneNameGroup("limit", query);
    OneNameGroup("sort", query);
  }

  /** The URL getAllCarts builds: it pushes the entries into a list and, when
      the list is not empty, appends `?` and the list joined with `&`. */
  method AllCartsUrl(query: Query) returns (url: string)
    ensures url == BASE_URL + "/carts" + Suffix(QueryParams(AllCartsGroups, query))
  {
    url := BASE_URL + "/carts";
    var queryParams: seq<string> := [];
    ghost var ps: seq<Param> := [];
    // The parameters each group contributes, as in `AllCartsGroupsInTurn`.
    ghost var dates := if Present(query, "startdate") && Present(query, "enddate")
      then [Param("startdate", query["startdate"]), Param("enddate", query["enddate"])] else [];
    ghost var limit := if Present(query, "limit") then [Param("limit", query["limit"])] else [];
    ghost var sort := if Present(query, "sort") then [Param("sort", query["sort"])] else [];

    if Present(query, "startdate") && Present(query, "enddate") {
      RendersPush(ps, Param("startdate", query["startdate"]), "startdate=");
      queryParams, ps := queryParams + ["startdate=" + query["startdate"]], ps + [Param("startdate", query["startdate"])];
      RendersPush(ps, Param("enddate", query["enddate"]), "enddate=");
      queryParams, ps := queryParams + ["enddate=" + query["enddate"]], ps + [Param("enddate", query["enddate"])];
    }
    assert ps == dates && queryParams == Renders(ps);
    if Present(query, "limit") {
      RendersPush(ps, Param("limit", query["limit"]), "limit=");
      queryParams, ps := queryParams + ["limit=" + query["limit"]], ps + [Param("limit", query["limit"])];
    }
    assert ps == dates + limit && queryParams == Renders(ps);
    if Present(query, "sort") {
      RendersPush(ps, Param("sort", query["sort"]), "sort=");
      queryParams, ps := queryParams + ["sort=" + query["sort"]], ps + [Param("sort", query["sort"])];
    }
    assert ps == dates + limit + sort && queryParams == Renders(ps);
    AllCartsGroupsInTurn(query);
    AppendSuffix(url, queryParams, ps);

    if |queryParams| > 0 {
      url := url + "?" + Join(queryParams, "&");
    }
  }

  /** GET /carts */
  method GetAllCarts(req: Request, o: Outcome) returns (ex: Exchange)
    ensures ex == Forward(GetAllCartsRule, req, o)
  {
    var url := AllCartsUrl(req.query);
    assert url == Target(GetAllCartsRule, req) by {
      assert BASE_URL + "/carts" + "" == BASE_URL + "/carts";
    }
    ex := Exchange(Some(UpstreamRequest(Get, url, None)), Relay(o, false));
  }

  /** GET /carts/:id */
  function GetCartById(req: Request, o: Outcome): Exchange
  {
    Exchange(Some(UpstreamRequest(Get, BASE_URL + "/carts/" + PathParam(req, "id"), None)), Relay(o, false))
  }

  /** GET /carts/user/:userId: the date range is appended by hand, as a
      pair, when both bounds are present. */
  method GetUserCarts(req: Request, o: Outcome) returns (ex: Exchange)
    ensures ex == Forward(GetUserCartsRule, req, o)
  {
    var userId := PathParam(req, "userId");
    var url := BASE_URL + "/carts/user/" + userId;
    if Present(req.query, "startdate") && Present(req.query, "enddate") {
      url := url + "?startdate=" + req.query["startdate"] + "&enddate=" + req.query["enddate"];
    }
    UserCartsTarget(req);
    ex := Exchange(Some(UpstreamRequest(Get, url, None)), Relay(o, false));
  }

  /** POST /carts */
  function AddCart(req: Request, o: Outcome): Exchange
  {
    Exchange(Some(UpstreamRequest(Post, BASE_URL + "/carts", Some(req.body))), Relay(o, true))
  }

  /** PUT /carts/:id */
  function UpdateCart(req: Request, o: Outcome): Exchange
  {
    Exchange(Some(UpstreamRequest(Put, BASE_URL + "/carts/" + PathParam(req, "id"), Some(req.body))), Relay(o, false))
  }

  /** PATCH /carts/:id */
  function PatchCart(req: Request, o: Outcome): Exchange
  {
    Exchange(Some(UpstreamRequest(Patch, BASE_URL + "/carts/" + PathParam(req, "id"), Some(req.body))), Relay(o, false))
  }

  /** DELETE /carts/:id */
  function DeleteCart(req: Request, o: Outcome): Exchange
  {
    Exchange(Some(UpstreamRequest(Delete, BASE_URL + "/carts/" + PathParam(req, "id"), None)), Relay(o, false))
  }

  /** The hand-written single-expression handlers are the forwarding table's
      rows: same verb, same URL, same body, same relay. */
  lemma CartHandlersFollowTable(req: Request, o: Outcome)
    ensures GetCartById(req, o) == Forward(GetCartByIdRule, req, o)
    ensures AddCart(req, o) == Forward(AddCartRule, req, o)
    ensures UpdateCart(req, o) == Forward(UpdateCartRule, req, o)
    ensures PatchCart(req, o) == Forward(PatchCartRule, req, o)
    ensures DeleteCart(req, o) == Forward(DeleteCartRule, req, o)
  {
    assert Suffix(QueryParams([], req.query)) == "";
    var byId := BASE_URL + "/carts/" + PathParam(req, "id");
    assert byId == BASE_URL + "/carts" + ("/" + PathParam(req, "id")) + "";
    assert Target(GetCartByIdRule, req) == byId;
    assert Target(UpdateCartRule, req) == byId;
    assert Target(PatchCartRule, req) == byId;
    assert Target(DeleteCartRule, req) == byId;
    assert Target(AddCartRule, req) == BASE_URL + "/carts" + "" + "" == BASE_URL + "/carts";
  }

  /** The four by-id handlers all target `/carts/{id}`; only PUT and PATCH
      carry a body, and it is `req.body` unchanged. */
  lemma CartByIdTargets(req: Request, o: Outcome)
    ensures forall rule :: rule in [GetCartByIdRule, UpdateCartRule, PatchCartRule, DeleteCartRule] ==>
      var sent := Forward(rule, req, o).sent.value;
      && sent.url == BASE_URL + "/carts/" + PathParam(req, "id")
      && (sent.body.Some? <==> sent.verb in {Put, Patch})
      && (sent.body.Some? ==> sent.body.value == req.body)
  {
    CartHandlersFollowTable(req, o);
  }

  /** addCart answers a success with 201 and every other cart handler with
      200, each with the upstream data unchanged whatever status upstream
      reported; every failure is a 500 carrying the failure's message. */
  lemma CartResponses(req: Request, o: Outcome)
    ensures forall rule :: rule in CartRules ==>
      Forward(rule, req, o).response ==
        match o
        case Success(_, data) => Response(if rule == AddCartRule then 201 else 200, data)
        case Failure(message) => Response(500, ErrorBody(message))
  {
  }

  // ---------------------------------------------------------------------
  // What getAllCarts forwards.

  /** Position of a parameter in getAllCarts' fixed order. */
  function Rank(name: string): nat
  {
    if name == "startdate" then 0
    else if name == "enddate" then 1
    else if name == "limit" then 2
    else 3
  }

  predicate Forwarded(ps: seq<Param>, name: string)
  {
    exists i :: 0 <= i < |ps| && ps[i].name == name
  }

  /** The parameters getAllCarts forwards come in the order startdate,
      enddate, limit, sort, each at most once, with its value verbatim. */
  lemma AllCartsOrder(query: Query)
    ensures var ps := QueryParams(AllCartsGroups, query);
      && (forall i, j :: 0 <= i < j < |ps| ==> Rank(ps[i].name) < Rank(ps[j].name))
      && (forall i :: 0 <= i < |ps| ==> Present(query, ps[i].name) && ps[i].value == query[ps[i].name])
  {
    var ps := QueryParams(AllCartsGroups, query);
    AllCartsGroupsInTurn(query);
    QueryParamsVerbatim(AllCartsGroups, query);
    forall i | 0 <= i < |ps|
      ensures Present(query, ps[i].name) && ps[i].value == query[ps[i].name]
    {
      assert ps[i] in ps;
    }
  }

  /** The two dates are forwarded only together; `limit` and `sort` exactly
      when present. */
  lemma AllCartsForwarded(query: Query)
    ensures var ps := QueryParams(AllCartsGroups, query);
      && (Forwarded(ps, "startdate") <==> Present(query, "startdate") && Present(query, "enddate"))
      && (Forwarded(ps, "enddate") <==> Present(query, "startdate") && Present(query, "enddate"))
      && (Forwarded(ps, "limit") <==> Present(query, "limit"))
      && (Forwarded(ps, "sort") <==> Present(query, "sort"))
  {
    var dates := Present(query, "startdate") && Present(query, "enddate");
    var ps := QueryParams(AllCartsGroups, query);
    AllCartsGroupsInTurn(query);
    var d := if dates then [Param("startdate", query["startdate"]), Param("enddate", query["enddate"])] else [];
    var l := if Present(query, "limit") then [Param("limit", query["limit"])] else [];
    var s := if Present(query, "sort") then [Param("sort", query["sort"])] else [];
    assert ps == d + l + s;
    if dates { assert ps[0].name == "startdate" && ps[1].name == "enddate"; }
    if Present(query, "limit") { assert ps[|d|].name == "limit"; }
    if Present(query, "sort") { assert ps[|d| + |l|].name == "sort"; }
  }

  /** With no date pair, limit or sort, getAllCarts targets the bare
      collection URL, with no `?`. */
  lemma AllCartsBareUrl(req: Request)
    requires !Present(req.query, "limit") && !Present(req.query, "sort")
    requires !Present(req.query, "startdate") || !Present(req.query, "enddate")
    ensures Target(GetAllCartsRule, req) == BASE_URL + "/carts"
    ensures '?' !in Target(GetAllCartsRule, req)
  {
    AllCartsGroupsInTurn(req.query);
    TargetWithoutPathParam(GetAllCartsRule, req);
    assert BASE_URL + "/carts" + "" == BASE_URL + "/carts";
    BaseUrlHasNoQuery();
  }

  /** getAllCarts' parameter names hold no separator of a URL. */
  lemma AllCartsNamesPlain(name: string)
    requires name in Names(AllCartsGroups)
    ensures '=' !in name && '&' !in name && '?' !in name
  {
    assert AllCartsGroups[1..] == [["limit"], ["sort"]];
    assert AllCartsGroups[1..][1..] == [["sort"]];
    assert AllCartsGroups[1..][1..][1..] == [];
    assert Names([["sort"]]) == ["sort"] + [];
    assert Names([["limit"], ["sort"]]) == ["limit"] + Names([["sort"]]);
    assert Names(AllCartsGroups) == DateRange + Names([["limit"], ["sort"]]);
    assert name == "startdate" || name == "enddate" || name == "limit" || name == "sort";
  }

  /** Read back by `ParseQuery`, the URL getAllCarts builds carries exactly
      the forwarded parameters behind its single `?`, each once, in order and
      verbatim, as long as no forwarded value holds a `&` or a `?` (values are
      not encoded, so such a value would add entries of its own; see
      `UnencodedValueAddsEntries`). */
  lemma AllCartsReadBack(req: Request)
    requires forall n :: n in Names(AllCartsGroups) && n in req.query ==>
      '&' !in req.query[n] && '?' !in req.query[n]
    ensures var ps := QueryParams(AllCartsGroups, req.query);
      ps != [] ==>
        && Target(GetAllCartsRule, req) == BASE_URL + "/carts" + "?" + Join(Renders(ps), "&")
        && ParseQuery(Join(Renders(ps), "&")) == ps
    ensures Occurrences(Target(GetAllCartsRule, req), '?') ==
      if QueryParams(AllCartsGroups, req.query) == [] then 0 else 1
  {
    forall n | n in Names(AllCartsGroups)
      ensures '=' !in n && '&' !in n && '?' !in n
    {
      AllCartsNamesPlain(n);
    }
    TargetReadBack(GetAllCartsRule, req);
    TargetQuestionMarks(GetAllCartsRule, req);
  }

  /** With `sort` the only parameter forwarded, getAllCarts targets
      `/carts?sort=S`, with `S` as it came. */
  lemma SortOnlyUrl(req: Request)
    requires !Present(req.query, "limit") && Present(req.query, "sort")
    requires !Present(req.query, "startdate") || !Present(req.query, "enddate")
    ensures Target(GetAllCartsRule, req) == BASE_URL + "/carts" + "?sort=" + req.query["sort"]
  {
    AllCartsGroupsInTurn(req.query);
    OpenOneEntry(Param("sort", req.query["sort"]), "?sort=");
    TargetWithoutPathParam(GetAllCartsRule, req);
    AppendAssociates(BASE_URL + "/carts", "?sort=", req.query["sort"]);
  }

  /** The entry `sort=desc&limit=1` is read back as two entries. */
  lemma InjectedLimit()
    ensures ParseQuery("sort=" + "desc&limit=1") == [Param("sort", "desc"), Param("limit", "1")]
  {
    var limit := Param("limit", "1");
    assert Render(limit) == "limit=1";
    assert "desc" + "&" + Render(limit) == "desc&limit=1";
    assert Render(Param("sort", "desc&limit=1")) == "sort=" + "desc&limit=1";
    InjectedEntry(Param("sort", "desc"), limit);
  }

  /** Values are not encoded: a `sort` value holding `&limit=1` is put into
      the URL as it is, and `ParseQuery` reads two entries from it, a `limit`
      the caller never sent among them. */
  lemma UnencodedValueAddsEntries(req: Request)
    requires !Present(req.query, "limit") && "sort" in req.query && req.query["sort"] == "desc&limit=1"
    requires !Present(req.query, "startdate") || !Present(req.query, "enddate")
    ensures Target(GetAllCartsRule, req) == BASE_URL + "/carts" + "?" + ("sort=" + "desc&limit=1")
    ensures ParseQuery("sort=" + "desc&limit=1") == [Param("sort", "desc"), Param("limit", "1")]
  {
    SortOnlyUrl(req);
    AppendAssociates(BASE_URL + "/carts" + "?", "sort=", "desc&limit=1");
    assert BASE_URL + "/carts" + "?sort=" == BASE_URL + "/carts" + "?" + "sort=";
    InjectedLimit();
  }

  /** getUserCarts targets `/carts/user/{userId}` and appends
      `?startdate=S&enddate=E` exactly when both bounds are present. */
  lemma UserCartsTarget(req: Request)
    ensures var url := BASE_URL + "/carts/user/" + PathParam(req, "userId");
      if Present(req.query, "startdate") && Present(req.query, "enddate")
      then Target(GetUserCartsRule, req) == url + "?startdate=" + req.query["startdate"] + "&enddate=" + req.query["enddate"]
      else Target(GetUserCartsRule, req) == url
  {
    TwoNameGroup("startdate", "enddate", req.query);
    var ps := QueryParams([DateRange], req.query);
    var url := BASE_URL + "/carts/user/" + PathParam(req, "userId");
    TargetWithPathParam(GetUserCartsRule, req, "/carts/user/");
    if ps != [] {
      var sd, ed := req.query["startdate"], req.query["enddate"];
      OpenTwoEntries(ps[0], ps[1], "?startdate=", "&enddate=");
      AppendFourAssociates(url, "?startdate=", sd, "&enddate=", ed);
    } else {
      assert url + "" == url;
    }
  }

  /** getUserCarts never forwards `limit` or `sort`, whatever their values. */
  lemma UserCartsIgnoresLimitAndSort(req: Request, limit: string, sort: string)
    ensures Target(GetUserCartsRule, req.(query := req.query["limit" := limit]["sort" := sort]))
         == Target(GetUserCartsRule, req)
  {
    var r2 := req.(query := req.query["limit" := limit]["sort" := sort]);
    assert Names([DateRange]) == DateRange;
    forall n | n in Names(GetUserCartsRule.groups) ensures AgreeOn(req.query, r2.query, n) {
      assert n == "startdate" || n == "enddate";
    }
    TargetReadsOnlyRuleNames(GetUserCartsRule, req, r2);
  }
}
