/** The records of the booking application and the enumerations its columns draw from
    (types.js and the ORM schema the route handlers write to). Timestamps are opaque integers;
    money and durations are reals. */
module Domain {
  import opened Wrappers
  import opened Tables

  /** Booking status: "pending" | "confirmed" | "cancelled". */
  datatype BookingStatus = Pending | Confirmed | Cancelled

  /** Payment status: "pending" | "paid" | "failed". */
  datatype PaymentStatus = PaymentPending | Paid | Failed

  /** Payment method: "pix" | "credit_card" | "cash". */
  datatype PaymentMethod = Pix | CreditCard | Cash

  /** User type: "cliente" | "mensalista" | "empresa" | "gerente". */
  datatype UserType = Cliente | Mensalista | EmpresaType | Gerente

  /** User role: "user" | "admin". */
  datatype Role = UserRole | Admin

  function StatusName(s: BookingStatus): (t: string)
    ensures t in {"pending", "confirmed", "cancelled"}
  {
    match s
    case Pending => "pending"
    case Confirmed => "confirmed"
    case Cancelled => "cancelled"
  }

  function PaymentStatusName(s: PaymentStatus): (t: string)
    ensures t in {"pending", "paid", "failed"}
  {
    match s
    case PaymentPending => "pending"
    case Paid => "paid"
    case Failed => "failed"
  }

  function ParseUserType(t: string): (r: Option<UserType>)
    ensures r.Some? <==> t in {"cliente", "mensalista", "empresa", "gerente"}
  {
    if t == "cliente" then Some(Cliente)
    else if t == "mensalista" then Some(Mensalista)
    else if t == "empresa" then Some(EmpresaType)
    else if t == "gerente" then Some(Gerente)
    else None
  }

  /** The text stored for a user type; ParseUserType reads it back. */
  function UserTypeName(u: UserType): (t: string)
    ensures ParseUserType(t) == Some(u)
  {
    match u
    case Cliente => "cliente"
    case Mensalista => "mensalista"
    case EmpresaType => "empresa"
    case Gerente => "gerente"
  }

  function ParseRole(t: string): (r: Option<Role>)
    ensures r.Some? <==> t in {"user", "admin"}
  {
    if t == "user" then Some(UserRole)
    else if t == "admin" then Some(Admin)
    else None
  }

  /** The text stored for a role; ParseRole reads it back. */
  function RoleName(r: Role): (t: string)
    ensures ParseRole(t) == Some(r)
  {
    match r
    case UserRole => "user"
    case Admin => "admin"
  }

  datatype User = User(
    id: int,
    name: string,
    email: string,
    phone: Option<string>,
    password: Option<string>,   // the bcrypt hash, never the raw password
    userType: UserType,
    role: Role,
    companyId: Option<int>,
    emailVerified: Option<int>)

  /** A company. `ownerId` is the owner column the empresas route and the register route
      write; `userId` is the unique link behind a user's `empresaOwned`, written by the
      complete-registration route. */
  datatype Empresa = Empresa(
    id: int,
    name: string,
    address: Option<string>,
    contact: Option<string>,
    ownerId: Option<int>,
    userId: Option<int>,
    isActive: bool)

  datatype Quadra = Quadra(
    id: int,
    name: string,
    location: string,
    description: Option<string>,
    empresaId: Option<int>,
    precoNormal: Option<real>,
    precoMensalista: Option<real>,
    available: bool,
    isActive: bool)

  datatype Price = Price(
    id: int,
    duration: real,
    priceType: string,   // "normal" or "mensalista" by convention; the column is free text
    value: real,
    empresaId: Option<int>,
    isActive: bool)

  /** A row of the join table between quadras and prices. */
  datatype QuadraPrice = QuadraPrice(quadraId: int, priceId: int)

  datatype Horario = Horario(
    id: int,
    start: int,
    end: int,
    quadraId: int,
    isActive: bool)

  datatype Agendamento = Agendamento(
    id: int,
    userId: int,
    quadraId: int,
    horarioId: int,
    empresaId: Option<int>,
    status: BookingStatus,
    totalValue: Option<real>,
    paymentStatus: PaymentStatus,
    paymentMethod: PaymentMethod,
    paymentReference: Option<string>,
    isActive: bool,
    createdAt: int)

  /** One court as the company-registration form collects it (page and route share it). */
  datatype QuadraInput = QuadraInput(
    name: string,
    location: string,
    description: string,
    normal: real,
    mensalista: real)

  /** The columns of a user that the users route selects. */
  datatype UserSummary = UserSummary(id: int, name: string, email: string, userType: UserType, role: Role)

  /** A court with its upcoming time slots, as the courts route returns it. */
  datatype Court = Court(quadra: Quadra, slots: seq<Horario>)

  /** The JSON body of a response. */
  datatype Body =
    | ErrorBody(error: string)
    | MessageBody(message: string)
    | UserBody(user: User)
    | SummaryBody(summary: UserSummary)
    | SummaryList(summaries: seq<UserSummary>)
    | EmpresaBody(empresa: Empresa)
    | EmpresaList(empresas: seq<Empresa>)
    | QuadraBody(quadra: Quadra)
    | QuadraList(quadras: seq<Quadra>)
    | PriceBody(price: Price)
    | PriceList(prices: seq<Price>)
    | HorarioBody(horario: Horario)
    | HorarioList(horarios: seq<Horario>)
    | BookingBody(booking: Agendamento)
    | BookingList(bookings: seq<Agendamento>)
    | CourtList(courts: seq<Court>)
    | Registered(owner: User, newEmpresa: Empresa)
    | RegistrationCompleted(createdEmpresa: Empresa, createdQuadras: seq<Quadra>)

  /** An HTTP response: status code and JSON body. */
  datatype Response = Response(status: int, body: Body)

  /** The answer of a route that needs a signed-in user and has none. */
  const Unauthorized := Response(401, ErrorBody("Não autorizado"))

  function UserKey(u: User): int { u.id }
  function UserEmail(u: User): string { u.email }
  function EmpresaKey(e: Empresa): int { e.id }
  function QuadraKey(q: Quadra): int { q.id }
  function PriceKey(p: Price): int { p.id }
  function HorarioKey(h: Horario): int { h.id }
  function AgendamentoKey(b: Agendamento): int { b.id }

  /** Every table at one instant, with the autoincrement counter: one id source for all
      tables, so a new row's id is always fresh and a deleted id is never reused. */
  datatype Db = Db(
    users: seq<User>,
    empresas: seq<Empresa>,
    quadras: seq<Quadra>,
    prices: seq<Price>,
    quadraPrices: seq<QuadraPrice>,
    horarios: seq<Horario>,
    agendamentos: seq<Agendamento>,
    nextId: int)
  {
    /** Primary keys are unique and below the counter; user emails are unique. */
    ghost predicate Valid()
    {
      && nextId > 0
      && UniqueBy(users, UserKey) && KeysBelow(users, UserKey, nextId)
      && UniqueBy(users, UserEmail)
      && UniqueBy(empresas, EmpresaKey) && KeysBelow(empresas, EmpresaKey, nextId)
      && UniqueBy(quadras, QuadraKey) && KeysBelow(quadras, QuadraKey, nextId)
      && UniqueBy(prices, PriceKey) && KeysBelow(prices, PriceKey, nextId)
      && UniqueBy(horarios, HorarioKey) && KeysBelow(horarios, HorarioKey, nextId)
      && UniqueBy(agendamentos, AgendamentoKey) && KeysBelow(agendamentos, AgendamentoKey, nextId)
    }
  }

  /** A user owns at most one company: the `userId` link behind `empresaOwned` is unique
      among the companies that have one. */
  ghost predicate OneCompanyPerUser(rows: seq<Empresa>)
  {
    forall i, j :: 0 <= i < j < |rows| && rows[i].userId.Some? ==> rows[i].userId != rows[j].userId
  }

  // Primary-key and unique-column lookups (`findUnique`): the index of the row, if any.

  function UserIndex(rows: seq<User>, id: int): (r: Option<nat>)
    ensures r.Some? ==> r.value < |rows| && rows[r.value].id == id
    ensures r.None? <==> forall j :: 0 <= j < |rows| ==> rows[j].id != id
  {
    FindFirst(rows, (u: User) => u.id == id)
  }

  function UserEmailIndex(rows: seq<User>, email: string): (r: Option<nat>)
    ensures r.Some? ==> r.value < |rows| && rows[r.value].email == email
    ensures r.None? <==> forall j :: 0 <= j < |rows| ==> rows[j].email != email
  {
    FindFirst(rows, (u: User) => u.email == email)
  }

  /** A user appended with an email no row has is the one the email finds. */
  lemma EmailIndexOfAppended(rows: seq<User>, u: User)
    requires forall j :: 0 <= j < |rows| ==> rows[j].email != u.email
    ensures UserEmailIndex(rows + [u], u.email) == Some(|rows|)
  {
    assert (rows + [u])[|rows|].email == u.email;
  }

  function EmpresaIndex(rows: seq<Empresa>, id: int): (r: Option<nat>)
    ensures r.Some? ==> r.value < |rows| && rows[r.value].id == id
    ensures r.None? <==> forall j :: 0 <= j < |rows| ==> rows[j].id != id
  {
    FindFirst(rows, (e: Empresa) => e.id == id)
  }

  function QuadraIndex(rows: seq<Quadra>, id: int): (r: Option<nat>)
    ensures r.Some? ==> r.value < |rows| && rows[r.value].id == id
    ensures r.None? <==> forall j :: 0 <= j < |rows| ==> rows[j].id != id
  {
    FindFirst(rows, (q: Quadra) => q.id == id)
  }

  function PriceIndex(rows: seq<Price>, id: int): (r: Option<nat>)
    ensures r.Some? ==> r.value < |rows| && rows[r.value].id == id
    ensures r.None? <==> forall j :: 0 <= j < |rows| ==> rows[j].id != id
  {
    FindFirst(rows, (p: Price) => p.id == id)
  }

  function HorarioIndex(rows: seq<Horario>, id: int): (r: Option<nat>)
    ensures r.Some? ==> r.value < |rows| && rows[r.value].id == id
    ensures r.None? <==> forall j :: 0 <= j < |rows| ==> rows[j].id != id
  {
    FindFirst(rows, (h: Horario) => h.id == id)
  }

  function AgendamentoIndex(rows: seq<Agendamento>, id: int): (r: Option<nat>)
    ensures r.Some? ==> r.value < |rows| && rows[r.value].id == id
    ensures r.None? <==> forall j :: 0 <= j < |rows| ==> rows[j].id != id
  {
    FindFirst(rows, (b: Agendamento) => b.id == id)
  }
}
