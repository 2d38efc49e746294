/** /api/users: the user list of the admin page, and the change of a user's type and role. */
module UsersRoute {
  import opened Wrappers
  import opened Tables
  import opened JsValues
  import opened Domain
  import opened Persistence

  /** The selected columns of a user. */
  function Summary(u: User): UserSummary
  {
    UserSummary(u.id, u.name, u.email, u.userType, u.role)
  }

  /** Lexicographic order of texts by character code, a prefix first. */
  predicate TextLe(a: string, b: string)
    decreases |a|
  {
    |a| == 0 || (|b| > 0 && (a[0] < b[0] || (a[0] == b[0] && TextLe(a[1..], b[1..]))))
  }

  lemma {:induction false} TextLeTotal(a: string, b: string)
    ensures TextLe(a, b) || TextLe(b, a)
    decreases |a|
  {
    if |a| > 0 && |b| > 0 && a[0] == b[0] {
      TextLeTotal(a[1..], b[1..]);
    }
  }

  lemma {:induction false} TextLeTransitive(a: string, b: string, c: string)
    requires TextLe(a, b) && TextLe(b, c)
    ensures TextLe(a, c)
    decreases |a|
  {
    if |a| > 0 && a[0] == b[0] && b[0] == c[0] {
      TextLeTransitive(a[1..], b[1..], c[1..]);
    }
  }

  /** The `orderBy: { name: 'asc' }` of GET. */
  predicate ByName(a: UserSummary, b: UserSummary)
  {
    TextLe(a.name, b.name)
  }

  lemma ByNameIsTotal()
    ensures TotalPreorder(ByName)
  {
    forall a: UserSummary, b: UserSummary ensures ByName(a, b) || ByName(b, a) {
      TextLeTotal(a.name, b.name);
    }
    forall a: UserSummary, b: UserSummary, c: UserSummary | ByName(a, b) && ByName(b, c) ensures ByName(a, c) {
      TextLeTransitive(a.name, b.name, c.name);
    }
  }

  function Summaries(users: seq<User>): (r: seq<UserSummary>)
    ensures |r| == |users|
    ensures forall k :: 0 <= k < |r| ==> r[k] == Summary(users[k])
  {
    seq(|users|, k requires 0 <= k < |users| => Summary(users[k]))
  }

  /** GET: for a signed-in caller, one summary per user, ordered by name. */
  function Get(db: Db, session: Option<int>): (r: Response)
    ensures session.None? ==> r == Unauthorized
    ensures session.Some? ==> r.status == 200 && r.body.SummaryList?
    ensures session.Some? ==> multiset(r.body.summaries) == multiset(Summaries(db.users))
    ensures session.Some? ==> forall s :: s in r.body.summaries <==> exists u :: u in db.users && Summary(u) == s
    ensures session.Some? ==> SortedBy(r.body.summaries, ByName)
  {
    match session
    case None => Unauthorized
    case Some(_) =>
      var all := Summaries(db.users);
      ByNameIsTotal();
      SortBySorted(all, ByName);
      var sorted := SortBy(all, ByName);
      assert forall s :: s in sorted <==> s in multiset(all);
      assert forall s :: s in all <==> exists u :: u in db.users && Summary(u) == s by {
        forall s | s in all ensures exists u :: u in db.users && Summary(u) == s {
          var k :| 0 <= k < |all| && all[k] == s;
          assert db.users[k] in db.users;
        }
        forall s | (exists u :: u in db.users && Summary(u) == s) ensures s in all {
          var u :| u in db.users && Summary(u) == s;
          var k :| 0 <= k < |db.users| && db.users[k] == u;
          assert all[k] == s;
        }
      }
      Response(200, SummaryList(sorted))
  }

  /** The JSON body of PUT: the type and role as texts. */
  datatype UpdateRequest = UpdateRequest(id: Option<int>, userType: Option<string>, role: Option<string>)

  /** The types an admin may give; `empresa` is not among them. */
  const AllowedTypes: seq<string> := ["cliente", "mensalista", "gerente"]
  const AllowedRoles: seq<string> := ["user", "admin"]

  /** The checks of PUT before the write: a falsy id, type or role is 400 "Dados inválidos";
      a type or role outside the allowed lists is 400 "Tipo ou função inválida"; otherwise the
      parsed type and role. */
  function Validate(req: UpdateRequest): (r: Result<(UserType, Role), Response>)
    ensures r.Ok? <==>
      TruthyId(req.id) && req.userType.Some? && req.userType.value in AllowedTypes
                       && req.role.Some? && req.role.value in AllowedRoles
    ensures !(TruthyId(req.id) && TruthyText(req.userType) && TruthyText(req.role)) ==>
      r == Err(Response(400, ErrorBody("Dados inválidos")))
    ensures TruthyId(req.id) && TruthyText(req.userType) && TruthyText(req.role) && r.Err? ==>
      r.error == Response(400, ErrorBody("Tipo ou função inválida"))
    ensures r.Ok? ==>
      && UserTypeName(r.value.0) == req.userType.value && r.value.0 != EmpresaType
      && RoleName(r.value.1) == req.role.value
  {
    if !TruthyId(req.id) || !TruthyText(req.userType) || !TruthyText(req.role) then
      Err(Response(400, ErrorBody("Dados inválidos")))
    else if req.userType.value !in AllowedTypes || req.role.value !in AllowedRoles then
      Err(Response(400, ErrorBody("Tipo ou função inválida")))
    else
      Ok((ParseUserType(req.userType.value).value, ParseRole(req.role.value).value))
  }

  /** PUT: 401 without a session; a request Validate refuses is answered by it; an unknown id
      is 500. Otherwise only the user's type and role change, and the summary is returned.
      The store is untouched on every refusal. */
  method Put(store: Store, session: Option<int>, req: UpdateRequest) returns (resp: Response)
    requires store.Valid()
    modifies store
    ensures store.Valid()
    ensures session.None? ==> resp == Unauthorized
    ensures session.Some? && Validate(req).Err? ==> resp == Validate(req).error
    ensures session.Some? && Validate(req).Ok? && UserIndex(old(store.users), req.id.value).None? ==>
      resp == Response(500, ErrorBody("Erro ao atualizar usuário"))
    ensures resp.status == 200 <==>
      session.Some? && Validate(req).Ok? && UserIndex(old(store.users), req.id.value).Some?
    ensures resp.status != 200 ==> store.Snapshot() == old(store.Snapshot())
    ensures resp.status == 200 ==>
      var i := UserIndex(old(store.users), req.id.value).value;
      var u := old(store.users)[i].(userType := Validate(req).value.0, role := Validate(req).value.1);
      && store.Snapshot() == old(store.Snapshot()).(users := old(store.users)[i := u])
      && resp.body == SummaryBody(Summary(u))
  {
    if session.None? {
      return Unauthorized;
    }
    var checked := Validate(req);
    if checked.Err? {
      return checked.error;
    }
    var found := UserIndex(store.users, req.id.value);
    if found.None? {
      return Response(500, ErrorBody("Erro ao atualizar usuário"));
    }
    var i := found.value;
    var u := store.users[i].(userType := checked.value.0, role := checked.value.1);
    ReplaceSameKey(store.users, UserKey, i, u);
    ReplaceSameKey(store.users, UserEmail, i, u);
    store.users := store.users[i := u];
    resp := Response(200, SummaryBody(Summary(u)));
  }
}
