/** /api/empresas/register: a new company together with its owner account, in one
    transaction. */
module RegisterRoute {
  import opened Wrappers
  import opened Tables
  import opened Domain
  import opened Persistence

  /** The JSON body of the company sign-up form. */
  datatype Request = Request(
    empresaName: string,
    address: Option<string>,
    contact: Option<string>,
    ownerName: string,
    ownerEmail: string,
    ownerPassword: string,
    ownerPhone: Option<string>)

  /** POST. A taken email is refused with 400 and nothing is written. Otherwise, all at once:
      the owner is created as a verified company admin whose password is stored only as its
      hash, the company is created with that owner, and the owner's `companyId` is set to the
      company. The answer carries the user as first created, before `companyId` was set.
      `hash` is the bcrypt hash and `now` the clock. */
  method Post(store: Store, req: Request, hash: string -> string, now: int) returns (resp: Response)
    requires store.Valid()
    modifies store
    ensures store.Valid()
    ensures resp.status == 201 <==> UserEmailIndex(old(store.users), req.ownerEmail).None?
    ensures resp.status != 201 ==>
      resp == Response(400, ErrorBody("Email já cadastrado")) && store.Snapshot() == old(store.Snapshot())
    ensures resp.status == 201 ==>
      var u := User(old(store.nextId), req.ownerName, req.ownerEmail, req.ownerPhone, Some(hash(req.ownerPassword)),
                    EmpresaType, Admin, None, Some(now));
      var e := Empresa(old(store.nextId) + 1, req.empresaName, req.address, req.contact, Some(u.id), None, true);
      && resp.body == Registered(u, e)
      && store.Snapshot() == old(store.Snapshot()).(
           users := old(store.users) + [u.(companyId := Some(e.id))],
           empresas := old(store.empresas) + [e],
           nextId := old(store.nextId) + 2)
    ensures resp.status == 201 ==> UserEmailIndex(store.users, req.ownerEmail) == Some(|old(store.users)|)
    ensures OneCompanyPerUser(old(store.empresas)) ==> OneCompanyPerUser(store.empresas)
  {
    var existing := UserEmailIndex(store.users, req.ownerEmail);
    if existing.Some? {
      return Response(400, ErrorBody("Email já cadastrado"));
    }
    var n := store.nextId;
    var u := User(n, req.ownerName, req.ownerEmail, req.ownerPhone, Some(hash(req.ownerPassword)),
                  EmpresaType, Admin, None, Some(now));
    var e := Empresa(n + 1, req.empresaName, req.address, req.contact, Some(n), None, true);
    var linked := u.(companyId := Some(e.id));
    AppendFreshKey(store.users, UserKey, n, linked);
    AppendNewKey(store.users, UserEmail, linked);
    EmailIndexOfAppended(store.users, linked);
    BumpKeepsValid(store.Snapshot());
    AppendFreshKey(store.empresas, EmpresaKey, n + 1, e);
    BumpKeepsValid(store.Snapshot().(nextId := n + 1));
    store.users := store.users + [linked];
    store.empresas := store.empresas + [e];
    store.nextId := n + 2;
    resp := Response(201, Registered(u, e));
  }
}
