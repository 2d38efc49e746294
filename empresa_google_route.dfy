/** /api/auth/empresa-google: a company account for a Google sign-in. */
module EmpresaGoogleRoute {
  import opened Wrappers
  import opened Tables
  import opened Domain
  import opened Persistence

  /** POST. A taken email is refused with 400 and nothing is written; otherwise a verified
      company admin without password, phone or company is created and returned. `now` is the
      clock. */
  method Post(store: Store, email: string, name: string, now: int) returns (resp: Response)
    requires store.Valid()
    modifies store
    ensures store.Valid()
    ensures resp.status == 200 <==> UserEmailIndex(old(store.users), email).None?
    ensures resp.status != 200 ==>
      resp == Response(400, ErrorBody("Usuário já existe")) && store.Snapshot() == old(store.Snapshot())
    ensures resp.status == 200 ==>
      var u := User(old(store.nextId), name, email, None, None, EmpresaType, Admin, None, Some(now));
      && resp.body == UserBody(u)
      && store.Snapshot() == old(store.Snapshot()).(users := old(store.users) + [u], nextId := old(store.nextId) + 1)
    ensures resp.status == 200 ==> UserEmailIndex(store.users, email) == Some(|old(store.users)|)
  {
    var existing := UserEmailIndex(store.users, email);
    if existing.Some? {
      return Response(400, ErrorBody("Usuário já existe"));
    }
    var u := User(store.nextId, name, email, None, None, EmpresaType, Admin, None, Some(now));
    AppendFreshKey(store.users, UserKey, store.nextId, u);
    AppendNewKey(store.users, UserEmail, u);
    EmailIndexOfAppended(store.users, u);
    BumpKeepsValid(store.Snapshot());
    store.users := store.users + [u];
    store.nextId := store.nextId + 1;
    resp := Response(200, UserBody(u));
  }
}
