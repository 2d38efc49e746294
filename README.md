# Court booking: the persistence rules of the route handlers

This project models the core of a court-booking web application (companies own courts; courts
have prices and time slots; customers book a slot at a price). It covers these parts:

- the collection route handlers that read or write the database: bookings, agendamentos,
  quadras, horarios, precos, empresas, company registration and sign-up, the Google company
  sign-up, users and courts (the per-court routes under `src/app/api/quadras/[id]/` are not
  part of this model);
- the three service modules: courts, bookings and prices;
- the pure logic of two pages: the company-registration form and the customer dashboard.

The database is a `class Store` (`persistence.dfy`) with one `seq` field per table and a single
autoincrement counter `nextId`. `Store.Snapshot()` bundles every field into a `Db` value.
That lets each handler's `ensures` give the whole new state as
`Snapshot() == old(Snapshot()).(table := …)`, which also says that nothing else changed.
`Db.Valid()` is preserved by every writing handler. It states:

- each table's ids are unique, positive and below the counter;
- user emails are unique.

Reads are functions over a `Db`, and writes are methods on the `Store`.

The handlers' responses are `Response(status, body)` values carrying the exact status codes and
error texts of the source. ORM behaviour is modelled as follows:

- An `update` or `delete` whose row is missing throws. The handler catches it and answers 500,
  with the store unchanged.
- A field left `undefined` in `data` or `where` is skipped. Request fields are `Option`s, and
  None means "left out".
- `findMany` with a `where` is `Tables.Filter` (stored order). `orderBy` is `Tables.SortBy`.

JavaScript conversions of query parameters are modelled in `js_values.dfy`:

- `Number(text)` and `parseInt(text)`. Only decimal digits are given a value; anything else
  is NaN.
- JavaScript truthiness (`!id`).

Money and durations are `real`. Timestamps are opaque `int`s, and the clock `now` is a
parameter. bcrypt's `hash` is a function parameter.

Facts about the code that shape the model:

- Among the modelled routes, the time-slot and price DELETE routes remove the row, while the
  quadras, empresas and agendamentos DELETE routes deactivate it
  (src/app/api/horarios/route.ts:86-118, src/app/api/precos/route.ts:68-97).
- No modelled route checks the caller's role; those that check anything check only that a
  session exists.
- The administrative POST on agendamentos checks no availability, so it can double-book a
  slot (`AgendamentosRoute.PostCanDoubleBook`).

## Model

| member | source | states |
|---|---|---|
| BookingsRoute.Post | src/app/api/bookings/route.ts:6-75 | Guards in order: no session 401; a missing quadraId or priceId 500; unknown court or price 404 "Quadra ou preço não encontrado"; an active pending/confirmed booking on the slot 400 "Horário já está agendado"; all guards passed but no horarioId 500 "Erro ao criar agendamento" (the insert fails); each refusal leaves the store unchanged. Success (200 iff all guards pass and horarioId is given) appends exactly one booking: the session user, the court's company, `totalValue` = the price's value, pending/pending/pix. Preserves the no-double-booking invariant |
| BookingsRoute.ConflictIndex | src/app/api/bookings/route.ts:35-44 | Finds a booking iff some active booking with status pending or confirmed matches the court and the slot; an absent horarioId matches every slot of the court |
| BookingsRoute.AppendToFreeSlot | src/app/api/bookings/route.ts:35-65 | Appending a booking to a slot no booking holds keeps "no two active pending/confirmed bookings share a (court, slot)" |
| BookingsRoute.NewestFirstIsTotal | src/app/api/bookings/route.ts:102-104 | Ordering by `createdAt` descending is a total preorder |
| BookingsRoute.Get | src/app/api/bookings/route.ts:77-115 | No session 401; otherwise exactly the caller's active bookings (same multiset), newest first |
| AgendamentosRoute.Get | src/app/api/agendamentos/route.ts:5-26 | 200 with exactly the active bookings, with multiplicities, in stored order |
| AgendamentosRoute.Post | src/app/api/agendamentos/route.ts:29-56 | 201; one booking appended with the body's ids and total; status, payment status and method default to pending, pending, pix; an empty or absent reference is stored as null |
| AgendamentosRoute.AppendToHeldSlot | src/app/api/agendamentos/route.ts:33-44 | Appending a booking that holds a slot already held by a row breaks the no-double-booking invariant |
| AgendamentosRoute.PostCanDoubleBook | src/app/api/agendamentos/route.ts:33-44 | POST with the court and slot of a held booking and no status is accepted with 201, and afterwards the bookings hold that slot twice |
| AgendamentosRoute.Updated | src/app/api/agendamentos/route.ts:61-68 | Only status, payment status and payment reference change, each only when given |
| AgendamentosRoute.Put | src/app/api/agendamentos/route.ts:57-80 | 200 iff the id is given and exists; then only that row is replaced by `Updated`; otherwise 500 "Erro ao atualizar agendamento" and nothing changes |
| AgendamentosRoute.Delete | src/app/api/agendamentos/route.ts:81-100 | 200 iff the id exists; the row is kept with `isActive` false and no longer appears in GET; otherwise 500 and nothing changes |
| QuadrasRoute.Get | src/app/api/quadras/route.ts:6-28 | Active courts only; with a truthy `empresaId` parameter only those of `parseInt` of it (NaN matches none) |
| QuadrasRoute.GetOfCompany | src/app/api/quadras/route.ts:9-15 | With the decimal rendering of a company id, GET lists exactly that company's active courts |
| QuadrasRoute.Post | src/app/api/quadras/route.ts:31-45 | 201; one active, available court appended with the body's columns and a fresh id |
| QuadrasRoute.Updated | src/app/api/quadras/route.ts:57-60 | Only name, location and description change, each only when given |
| QuadrasRoute.Put | src/app/api/quadras/route.ts:48-67 | A falsy id 400 before any lookup; an unknown id 500; otherwise only that row changes |
| QuadrasRoute.Delete | src/app/api/quadras/route.ts:70-89 | A missing or empty `id` parameter 400; NaN or unknown 500; otherwise soft delete and the court leaves the active listing |
| HorariosRoute.Get | src/app/api/horarios/route.ts:6-30 | Exactly the active time slots, with multiplicities |
| HorariosRoute.Post | src/app/api/horarios/route.ts:33-55 | 201 iff both dates are valid; then one active slot appended; otherwise 500 "Erro ao criar horário" and nothing changes |
| HorariosRoute.Put | src/app/api/horarios/route.ts:59-82 | 200 iff id and both dates are given and the id exists; start and end overwritten, quadraId only when given |
| HorariosRoute.Delete | src/app/api/horarios/route.ts:86-118 | `Number` of the parameter falsy (absent, empty, 0, NaN) 400 "ID inválido"; unknown 500; otherwise the row is removed and every other row stays, in order |
| PrecosRoute.Get | src/app/api/precos/route.ts:5-20 | Exactly the active prices, with multiplicities |
| PrecosRoute.Post | src/app/api/precos/route.ts:23-42 | 201; one active price appended with the body's duration, type and value |
| PrecosRoute.Updated | src/app/api/precos/route.ts:50-53 | Only duration, type and value change, each only when given |
| PrecosRoute.Put | src/app/api/precos/route.ts:45-65 | 200 iff the id is given and exists; otherwise 500 "Erro ao atualizar preço" and nothing changes |
| PrecosRoute.Delete | src/app/api/precos/route.ts:68-97 | Falsy `Number` of the parameter 400; unknown 500; otherwise hard delete of that row only |
| EmpresasRoute.Get | src/app/api/empresas/route.ts:3-24 | Without a truthy `ownerId` parameter exactly the active companies; with one, companies of `parseInt` of it, active or not |
| EmpresasRoute.GetOfOwner | src/app/api/empresas/route.ts:7-10 | With the decimal rendering of an owner id, GET lists every company of that owner, deactivated ones included |
| EmpresasRoute.Post | src/app/api/empresas/route.ts:26-49 | 201; one active company appended with the body's name, address, contact and owner; keeps one company per user |
| EmpresasRoute.Updated | src/app/api/empresas/route.ts:55-62 | Only name, address and contact change; owner, user link and activity are kept |
| EmpresasRoute.Put | src/app/api/empresas/route.ts:51-74 | 200 iff the id is given and exists; otherwise 500 "Erro ao atualizar empresa" and nothing changes |
| EmpresasRoute.Delete | src/app/api/empresas/route.ts:76-98 | 200 iff the id exists; soft delete, and the company leaves the default listing; otherwise 500 "Erro ao desativar empresa" |
| EmpresasRoute.DeactivatedStillListedByOwner | src/app/api/empresas/route.ts:80-83 | A deactivated company is still listed by its owner's listing |
| CompleteRegistrationRoute.Refusal | src/app/api/empresas/complete-registration/route.ts:11-38 | The guards in order: falsy userId 400; unknown user 404; user already linked to a company 400; passes iff none applies |
| CompleteRegistrationRoute.CreatedQuadras | src/app/api/empresas/complete-registration/route.ts:52-63 | One court per entry, ids consecutive, each of the new company with the entry's name, location, description and both prices |
| CompleteRegistrationRoute.AddQuadras | src/app/api/empresas/complete-registration/route.ts:52-65 | The insert loop appends exactly `CreatedQuadras` and advances the counter by the number of entries |
| CompleteRegistrationRoute.MarkAsEmpresa | src/app/api/empresas/complete-registration/route.ts:69-76 | Only the user's type changes, to `empresa` |
| CompleteRegistrationRoute.LinkNewOwnerKeepsOne | src/app/api/empresas/complete-registration/route.ts:33-47 | Linking a new company to a user with none keeps one company per user |
| CompleteRegistrationRoute.Complete | src/app/api/empresas/complete-registration/route.ts:41-76 | Company linked to the user, then the courts, then the type change; afterwards the user owns a company |
| CompleteRegistrationRoute.Post | src/app/api/empresas/complete-registration/route.ts:4-92 | A refusal writes nothing; success returns the company and courts, the new state is exactly the three writes, a repeated request is refused with 400, and one company per user is kept |
| RegisterRoute.Post | src/app/api/empresas/register/route.ts:5-75 | A taken email 400 "Email já cadastrado" and nothing written; otherwise one user (hashed password, `empresa`, `admin`, verified) and one company owned by it, the user's `companyId` set to the company, both or neither; the answer carries the user before `companyId` was set |
| EmpresaGoogleRoute.Post | src/app/api/auth/empresa-google/route.ts:4-36 | A taken email 400 "Usuário já existe" and nothing written; otherwise exactly one user appended (`empresa`, `admin`, no password) and returned; the email now finds it |
| UsersRoute.TextLeTotal | src/app/api/users/route.ts:26-28 | The name order compares any two names |
| UsersRoute.TextLeTransitive | src/app/api/users/route.ts:26-28 | The name order is transitive |
| UsersRoute.ByNameIsTotal | src/app/api/users/route.ts:26-28 | Ordering summaries by name is a total preorder |
| UsersRoute.Get | src/app/api/users/route.ts:6-41 | No session 401; otherwise one summary per user (same multiset), sorted by name |
| UsersRoute.Validate | src/app/api/users/route.ts:59-75 | Accepts iff id truthy, type in cliente/mensalista/gerente and role in user/admin; a falsy field "Dados inválidos", otherwise "Tipo ou função inválida"; never yields type `empresa` |
| UsersRoute.Put | src/app/api/users/route.ts:43-99 | No session 401; a refused body gets Validate's answer; unknown id 500; otherwise only type and role of that user change |
| CourtsRoute.EarliestFirstIsTotal | src/app/api/courts/route.ts:35-37 | Ordering slots by start is a total preorder |
| CourtsRoute.Slots | src/app/api/courts/route.ts:29-39 | Exactly the court's active slots starting at `now` or later, with multiplicities, earliest first |
| CourtsRoute.Courts | src/app/api/courts/route.ts:13-41 | One entry per active, available court, in stored order, each with its own `Slots` |
| CourtsRoute.Get | src/app/api/courts/route.ts:5-51 | No session 401; otherwise the list is `Courts`: one entry per active, available court in stored order, each with exactly its active slots from `now` on (as a multiset), earliest first |
| QuadraService.QuadrasByEmpresa | src/services/quadraService.ts:3-8 | Exactly the company's active courts, with multiplicities |
| QuadraService.IsQuadraAvailable | src/services/quadraService.ts:10-15 | True iff no active booking of any status has the court and slot |
| QuadraService.ServiceTestImpliesRouteTest | src/services/quadraService.ts:10-15 | Whatever the service accepts, the bookings route's conflict query accepts too |
| QuadraService.CancelledBlocksOnlyTheService | src/services/quadraService.ts:10-15 | An active cancelled booking blocks the service test but not the route's |
| QuadraService.InactiveNeverBlocks | src/services/quadraService.ts:10-15 | Adding an inactive booking never changes availability |
| AgendamentoService.CreateBooking | src/services/agendamentoService.ts:4-11 | Error "Horário indisponível" iff the slot is taken, nothing written; otherwise one pending booking appended; keeps both slot invariants |
| AgendamentoService.OneActiveImpliesNoDoubleBooking | src/services/agendamentoService.ts:4-11 | The service's invariant implies the route's |
| AgendamentoService.BookingsByCliente | src/services/agendamentoService.ts:13-18 | Exactly the customer's active bookings, with multiplicities |
| PrecoService.PricesByEmpresa | src/services/precoService.ts:3-7 | Exactly the company's active prices, with multiplicities |
| PrecoService.JoinedPrices | src/services/precoService.ts:10-13 | Every price returned exists and is joined to the court |
| PrecoService.JoinedPricesComplete | src/services/precoService.ts:10-13 | Every existing price joined to the court is returned |
| PrecoService.CalculatePrice | src/services/precoService.ts:9-22 | Error "Preço não encontrado" iff no joined price of the wanted type or the first one is 0; otherwise that first price's value times the duration, and such a price exists |
| PrecoService.OtherCourtsJoinsIrrelevant | src/services/precoService.ts:10-13 | Joining a price to another court never changes a court's price |
| JsValues.ToNumber | src/app/api/horarios/route.ts:89 | `Number` gives an integer iff the text is all decimal digits (the empty text is 0), else NaN |
| JsValues.NumberOfParam | src/app/api/precos/route.ts:71 | An absent parameter reads as `Number(null)` = 0 |
| JsValues.ParseInt | src/app/api/quadras/route.ts:14 | `parseInt` gives a number iff the text starts with a digit |
| JsValues.ToNumberDecimal | src/app/api/quadras/route.ts:80 | `Number` reads back the decimal rendering of every natural number |
| JsValues.ParseIntOfDigits | src/app/api/empresas/route.ts:10 | On all-digit text, `parseInt` and `Number` agree |
| JsValues.ParseIntIgnoresSuffix | src/app/api/quadras/route.ts:14 | `parseInt` ignores anything after the leading digits |
| Domain.StatusName | types.js:34 | A booking status is stored as pending, confirmed or cancelled |
| Domain.PaymentStatusName | types.js:36 | A payment status is stored as pending, paid or failed |
| Domain.ParseUserType | src/app/api/users/route.ts:67 | Parses exactly the four user type texts |
| Domain.UserTypeName | src/app/api/empresas/register/route.ts:41 | The stored text of a type parses back to it |
| Domain.ParseRole | src/app/api/users/route.ts:68 | Parses exactly user and admin |
| Domain.RoleName | src/app/api/empresas/register/route.ts:42 | The stored text of a role parses back to it |
| CompleteForm.InitialQuadras | src/app/register/empresa/complete/page.tsx:22-30 | One blank entry, prices 0 |
| CompleteForm.AddQuadra | src/app/register/empresa/complete/page.tsx:55-65 | One blank entry appended, the others untouched |
| CompleteForm.RemoveQuadra | src/app/register/empresa/complete/page.tsx:67-69 | Exactly entry `index` removed, the rest in order; an index outside the list changes nothing |
| CompleteForm.RemoveUndoesAdd | src/app/register/empresa/complete/page.tsx:55-69 | Removing the entry just added gives the list back |
| CompleteForm.Apply | src/app/register/empresa/complete/page.tsx:73-77 | A text edit sets one field; a price edit merges, keeping the price it does not carry |
| CompleteForm.Updated | src/app/register/empresa/complete/page.tsx:71-79 | Same length; only entry `index` changes |
| CompleteForm.UpdateQuadra | src/app/register/empresa/complete/page.tsx:71-79 | The array copy with one entry written equals `Updated` |
| CompleteForm.NeverEmpty | src/app/register/empresa/complete/page.tsx:168-176 | Whatever the clicks on the controls shown, the list never becomes empty |
| CompleteForm.QuadrasValidas | src/app/register/empresa/complete/page.tsx:93-98 | True iff every entry has a name, a location and two positive prices; the description is not required |
| CompleteForm.InitialIsNotValid | src/app/register/empresa/complete/page.tsx:93-102 | The initial form does not pass validation |
| CompleteForm.Submit | src/app/register/empresa/complete/page.tsx:86-115 | A falsy session id fails before validation; invalid entries fail next; otherwise the request carries the user id, name (or "") as company name, email (or "") as contact and the entries |
| CompleteForm.SubmittedIsWellFormed | src/app/register/empresa/complete/page.tsx:104-115 | A request the page sends passes the route's userId check, and every court the route creates from it has name, location and positive prices |
| Dashboard.StatusColor | src/app/dashboard/page.tsx:85-96 | Green, yellow and red exactly for confirmed, pending and cancelled; gray exactly otherwise |
| Dashboard.FormatStatus | src/app/dashboard/page.tsx:98-105 | The Portuguese label of the three statuses; any other text unchanged |
| Dashboard.FormatPaymentStatus | src/app/dashboard/page.tsx:107-114 | The Portuguese label of the three payment statuses; any other text unchanged |
| Dashboard.CardOf | src/app/dashboard/page.tsx:144-208 | Cancel shown iff pending; pay shown iff pending with payment pending, so pay implies cancel; stored statuses never fall back to gray or to an untranslated label |
| Dashboard.KnownStatusesAreDistinguished | src/app/dashboard/page.tsx:85-105 | Distinct statuses get distinct colours and labels |
| Tables.SortBySorted | src/app/api/bookings/route.ts:102-104 | Sorting by a total preorder yields a sorted sequence (and `SortBy` keeps the multiset) |

## Left out

- ORM `include` joins (court with company, prices and slots; booking with court, slot and user) are not returned; responses carry the rows themselves.
- The ORM's schema validation of required columns and column types (a missing `name`, a non-numeric id in a body, a body `id` sent as text) is not modelled: request fields the handlers pass through are typed, and only the absent fields whose effect the handlers' own code determines are `Option`s.
- JsValues.ToNumber, JsValues.ParseInt: modelled for plain decimal text only; signs, spaces, decimals, exponents and hexadecimal read as NaN.
- QuadrasRoute.Get, EmpresasRoute.Get: a `parseInt` that gives NaN (`?empresaId=abc`, `?ownerId=abc`) is assumed to make the ORM filter match no row, so the model answers 200 with an empty list; if the ORM instead rejects NaN for an integer column, the source answers 500 from its catch (src/app/api/quadras/route.ts:22-25, src/app/api/empresas/route.ts:18-21).
- Values outside the enumerations (a status text such as "done") are not representable in the stored rows.
- Referential actions of the database (cascades, foreign-key failures when deleting a price or slot still referenced) are not modelled; a hard delete always succeeds when the id exists.
- AgendamentosRoute.Post, BookingsRoute.Post, HorariosRoute.Post, HorariosRoute.Put, QuadrasRoute.Post, EmpresasRoute.Post, AgendamentoService.CreateBooking: the ids these write (user, court and slot of a booking; court of a slot; company of a court; owner of a company) are relations in the source (the `include`s at src/app/api/agendamentos/route.ts:9-13, src/app/api/bookings/route.ts:93-95, src/app/api/horarios/route.ts:10, src/app/api/quadras/route.ts:16), so an insert or update naming a row that does not exist fails on the foreign key and the handler's catch answers 500 (e.g. src/app/api/agendamentos/route.ts:50-54); the database schema is not part of this model, and these members accept any id and answer 200 or 201.
- AgendamentoService.CreateBooking, AgendamentosRoute.Post, BookingsRoute.Post, QuadrasRoute.Post, HorariosRoute.Post, PrecosRoute.Post, EmpresasRoute.Post, CompleteRegistrationRoute.CreatedQuadras: the columns an insert leaves unset take assumed schema defaults (a new row is active, a new court is available; `createBooking` also gets payment pending by pix, no company and no total), since the schema is not part of this model.
- AgendamentoService.CreateBooking, AgendamentoService.BookingsByCliente, QuadraService.QuadrasByEmpresa, QuadraService.IsQuadraAvailable, PrecoService.PricesByEmpresa, PrecoService.CalculatePrice: the string ids these convert with `Number` (src/services/agendamentoService.ts:9, :15; src/services/quadraService.ts:5, :12; src/services/precoService.ts:5, :11) are taken as integers, so a non-numeric id (NaN) is not modelled.
- Concurrency: each handler runs alone on the store; the check-then-insert race between concurrent bookings is outside a sequential model.
- CompleteRegistrationRoute.AddQuadras: the parallel `Promise.all` inserts are modelled in entry order, so the ids of the courts follow the entries; a failure part-way (including a missing `quadras` array after the company is created) is not modelled.
- Authentication: sessions are an optional user id parameter; sign-in, session callbacks and route middleware are not part of this model. bcrypt is a function parameter.
- Pages: rendering, effects, redirects and fetch calls are not modelled; the registration form's state is a sequence of values, so the in-place write into an element object shared with the previous state (aliasing) is not captured; form prices from `parseFloat` are reals, never NaN.
- Dashboard.FormatStatus, Dashboard.FormatPaymentStatus: a status text naming an object prototype key (such as "constructor") is returned unchanged, whereas the source's map lookup would return an inherited value.
- UsersRoute.Get: names are ordered by character code; the database collation may order differently.
- Horario dates and all timestamps are opaque integers; an invalid date is an absent one.
- The per-court routes src/app/api/quadras/[id]/route.ts (GET, PUT, DELETE; PUT and DELETE answer 401 unless the session user is of type empresa and act only on a court of that user's company, and DELETE removes the row and answers 204) and src/app/api/quadras/[id]/agendamentos/route.ts (GET, POST) are not part of this model.
- The unrouted files src/app/api/quadras/get.ts, post.ts, put.ts and delete.ts and the services for user lookups are not part of this model.
- The "500" answers of GET handlers (database unavailable) are not modelled.
