/** The user controller: six handlers forwarding to `/users` upstream. */
module Users {
  import opened Json
  import opened Http
  import opened QueryString
  import opened Forwarding

  /** getAllUsers forwards `limit`, then `sort`. */
  const AllUsersGroups: seq<seq<string>> := [["limit"], ["sort"]]

  // The forwarding table of the user controller.
  const GetAllUsersRule := Rule(Get, "/users", None, AllUsersGroups, false, false)
  const GetUserByIdRule := Rule(Get, "/users", Some("id"), [], false, false)
  const AddUserRule := Rule(Post, "/users", None, [], true, true)
  const UpdateUserRule := Rule(Put, "/users", Some("id"), [], true, false)
  const PatchUserRule := Rule(Patch, "/users", Some("id"), [], true, false)
  const DeleteUserRule := Rule(Delete, "/users", Some("id"), [], false, false)

  const UserRules := [GetAllUsersRule, GetUserByIdRule, AddUserRule, UpdateUserRule, PatchUserRule, DeleteUserRule]

  /** What getAllUsers forwards, parameter by parameter. */
  lemma AllUsersParams(query: Query)
    ensures QueryParams(AllUsersGroups, query) ==
      (if Present(query, "limit") then [Param("limit", query["limit"])] else [])
      + (if Present(query, "sort") then [Param("sort", query["sort"])] else [])
  {
    assert AllUsersGroups == [["limit"]] + [["sort"]];
    QueryParamsConcat([["limit"]], [["sort"]], query);
    OneNameGroup("limit", query);
    OneNameGroup("sort", query);
  }

  /** The query suffix the join-based builder gives getAllUsers, with the
      separators written as the hand-built code writes them. */
  lemma AllUsersSuffix(query: Query)
    ensures var l, s := Present(query, "limit"), Present(query, "sort");
      Suffix(QueryParams(AllUsersGroups, query)) ==
        if l && s then "?limit=" + query["limit"] + "&sort=" + query["sort"]
        else if l then "?limit=" + query["limit"]
        else if s then "?sort=" + query["sort"]
        else ""
  {
    AllUsersParams(query);
    if Present(query, "limit") && Present(query, "sort") {
      OpenTwoEntries(Param("limit", query["limit"]), Param("sort", query["sort"]), "?limit=", "&sort=");
    } else if Present(query, "limit") {
      OpenOneEntry(Param("limit", query["limit"]), "?limit=");
    } else if Present(query, "sort") {
      OpenOneEntry(Param("sort", query["sort"]), "?sort=");
    }
  }

  /** The URL getAllUsers targets, case by case: `?` opens the query string
      whichever parameter comes first, `limit` precedes `sort`, and with
      neither the URL is the bare collection. */
  lemma AllUsersTarget(req: Request)
    ensures var q := req.query;
      && (!Present(q, "limit") && !Present(q, "sort") ==>
            Target(GetAllUsersRule, req) == BASE_URL + "/users")
      && (Present(q, "limit") && !Present(q, "sort") ==>
            Target(GetAllUsersRule, req) == BASE_URL + "/users" + "?limit=" + q["limit"])
      && (!Present(q, "limit") && Present(q, "sort") ==>
            Target(GetAllUsersRule, req) == BASE_URL + "/users" + "?sort=" + q["sort"])
      && (Present(q, "limit") && Present(q, "sort") ==>
            Target(GetAllUsersRule, req) == BASE_URL + "/users" + ("?limit=" + q["limit"] + "&sort=" + q["sort"]))
  {
    TargetWithoutPathParam(GetAllUsersRule, req);
    AllUsersSuffix(req.query);
    assert BASE_URL + "/users" + "" == BASE_URL + "/users";
    if Present(req.query, "limit") != Present(req.query, "sort") {
      var tail := if Present(req.query, "limit") then "?limit=" + req.query["limit"] else "?sort=" + req.query["sort"];
      AppendAssociates(BASE_URL + "/users", "", tail);
    }
  }

  /** The URL getAllUsers builds by hand, appending `?limit=L` and then
      `&sort=S` or `?sort=S` depending on whether `limit` was appended,
      equals the URL built the join-based way. */
  method AllUsersUrl(query: Query) returns (url: string)
    ensures url == BASE_URL + "/users" + Suffix(QueryParams(AllUsersGroups, query))
  {
    url := BASE_URL + "/users";
    if Present(query, "limit") {
      url := url + "?limit=" + query["limit"];
    }
    if Present(query, "sort") {
      url := url + (if Present(query, "limit") then "&sort=" + query["sort"] else "?sort=" + query["sort"]);
    }
    AllUsersSuffix(query);
    if Present(query, "limit") && Present(query, "sort") {
      AppendAssociates(BASE_URL + "/users" + "?limit=" + query["limit"], "&sort=", query["sort"]);
      AppendAssociates(BASE_URL + "/users", "?limit=" + query["limit"], "&sort=" + query["sort"]);
    }
  }

  /** GET /users */
  method GetAllUsers(req: Request, o: Outcome) returns (ex: Exchange)
    ensures ex == Forward(GetAllUsersRule, req, o)
  {
    var url := AllUsersUrl(req.query);
    TargetWithoutPathParam(GetAllUsersRule, req);
    ex := Exchange(Some(UpstreamRequest(Get, url, None)), Relay(o, false));
  }

  /** GET /users/:id */
  function GetUserById(req: Request, o: Outcome): Exchange
  {
    Exchange(Some(UpstreamRequest(Get, BASE_URL + "/users/" + PathParam(req, "id"), None)), Relay(o, false))
  }

  /** POST /users */
  function AddUser(req: Request, o: Outcome): Exchange
  {
    Exchange(Some(UpstreamRequest(Post, BASE_URL + "/users", Some(req.body))), Relay(o, true))
  }

  /** PUT /users/:id */
  function UpdateUser(req: Request, o: Outcome): Exchange
  {
    Exchange(Some(UpstreamRequest(Put, BASE_URL + "/users/" + PathParam(req, "id"), Some(req.body))), Relay(o, false))
  }

  /** PATCH /users/:id */
  function PatchUser(req: Request, o: Outcome): Exchange
  {
    Exchange(Some(UpstreamRequest(Patch, BASE_URL + "/users/" + PathParam(req, "id"), Some(req.body))), Relay(o, false))
  }

  /** DELETE /users/:id */
  function DeleteUser(req: Request, o: Outcome): Exchange
  {
    Exchange(Some(UpstreamRequest(Delete, BASE_URL + "/users/" + PathParam(req, "id"), None)), Relay(o, false))
  }

  /** The hand-written single-expression handlers are the forwarding table's
      rows: same verb, same URL, same body, same relay. */
  lemma UserHandlersFollowTable(req: Request, o: Outcome)
    ensures GetUserById(req, o) == Forward(GetUserByIdRule, req, o)
    ensures AddUser(req, o) == Forward(AddUserRule, req, o)
    ensures UpdateUser(req, o) == Forward(UpdateUserRule, req, o)
    ensures PatchUser(req, o) == Forward(PatchUserRule, req, o)
    ensures DeleteUser(req, o) == Forward(DeleteUserRule, req, o)
  {
    assert Suffix(QueryParams([], req.query)) == "";
    var byId := BASE_URL + "/users/" + PathParam(req, "id");
    assert byId == BASE_URL + "/users" + ("/" + PathParam(req, "id")) + "";
    assert Target(GetUserByIdRule, req) == byId;
    assert Target(UpdateUserRule, req) == byId;
    assert Target(PatchUserRule, req) == byId;
    assert Target(DeleteUserRule, req) == byId;
    assert Target(AddUserRule, req) == BASE_URL + "/users" + "" + "" == BASE_URL + "/users";
  }

  /** The four by-id handlers all target `/users/{id}`; only PUT and PATCH
      carry a body, and it is `req.body` unchanged. */
  lemma UserByIdTargets(req: Request, o: Outcome)
    ensures forall rule :: rule in [GetUserByIdRule, UpdateUserRule, PatchUserRule, DeleteUserRule] ==>
      var sent := Forward(rule, req, o).sent.value;
      && sent.url == BASE_URL + "/users/" + PathParam(req, "id")
      && (sent.body.Some? <==> sent.verb in {Put, Patch})
      && (sent.body.Some? ==> sent.body.value == req.body)
  {
    UserHandlersFollowTable(req, o);
  }

  /** addUser answers a success with 201 and every other user handler with
      200, each with the upstream data unchanged; every failure is a 500
      carrying the failure's message. */
  lemma UserResponses(req: Request, o: Outcome)
    ensures forall rule :: rule in UserRules ==>
      Forward(rule, req, o).response ==
        match o
        case Success(_, data) => Response(if rule == AddUserRule then 201 else 200, data)
        case Failure(message) => Response(500, ErrorBody(message))
  {
  }

  /** getAllUsers forwards `limit` and `sort` and nothing else. */
  lemma AllUsersNames(name: string)
    requires name in Names(AllUsersGroups)
    ensures name == "limit" || name == "sort"
  {
    assert Names([["sort"]]) == ["sort"] + Names([]);
    assert Names(AllUsersGroups) == ["limit"] + Names([["sort"]]);
  }

  /** With neither `limit` nor `sort` carrying a `?`, the URL getAllUsers
      builds has at most one `?`, and exactly one when a parameter is
      forwarded. */
  lemma AllUsersOneQuestionMark(req: Request)
    requires "limit" in req.query ==> '?' !in req.query["limit"]
    requires "sort" in req.query ==> '?' !in req.query["sort"]
    ensures Occurrences(Target(GetAllUsersRule, req), '?') ==
      if Present(req.query, "limit") || Present(req.query, "sort") then 1 else 0
  {
    forall n | n in Names(AllUsersGroups)
      ensures '?' !in n && (n in req.query ==> '?' !in req.query[n])
    {
      AllUsersNames(n);
    }
    TargetQuestionMarks(GetAllUsersRule, req);
    AllUsersParams(req.query);
  }
}
