/** The company-registration form page: the list of courts being entered, its edits, the
    validation run on submit, and the request it sends. */
module CompleteForm {
  import opened Wrappers
  import opened JsValues
  import opened Domain
  import CompleteRegistrationRoute

  /** A blank entry: empty texts and both prices 0. */
  const Blank := QuadraInput("", "", "", 0.0, 0.0)

  /** The list the page starts with. */
  function InitialQuadras(): (r: seq<QuadraInput>)
    ensures |r| == 1 && r[0] == Blank
  {
    [Blank]
  }

  /** addQuadra: one blank entry at the end, the others untouched. */
  function AddQuadra(s: seq<QuadraInput>): (r: seq<QuadraInput>)
    ensures |r| == |s| + 1 && r[|s|] == Blank
    ensures forall j :: 0 <= j < |s| ==> r[j] == s[j]
  {
    s + [Blank]
  }

  /** removeQuadra: keeps every entry whose position differs from `index`. */
  function RemoveQuadra(s: seq<QuadraInput>, index: int): (r: seq<QuadraInput>)
    ensures 0 <= index < |s| ==> |r| == |s| - 1
    ensures 0 <= index < |s| ==> forall j :: 0 <= j < index ==> r[j] == s[j]
    ensures 0 <= index < |s| ==> forall j :: index <= j < |r| ==> r[j] == s[j + 1]
    ensures !(0 <= index < |s|) ==> r == s
    decreases |s|
  {
    if s == [] then []
    else if index == 0 then s[1..]
    else
      var rest := RemoveQuadra(s[1..], index - 1);
      assert forall j :: 0 < j <= |rest| ==> ([s[0]] + rest)[j] == rest[j - 1];
      [s[0]] + rest
  }

  /** Removing the entry just added gives the list back. */
  lemma RemoveUndoesAdd(s: seq<QuadraInput>)
    ensures RemoveQuadra(AddQuadra(s), |s|) == s
  {
    var r := RemoveQuadra(AddQuadra(s), |s|);
    assert forall j :: 0 <= j < |s| ==> r[j] == s[j];
  }

  /** The edits of one entry: a text field set outright, or the prices merged, where a
      price the edit does not carry keeps its value. */
  datatype FieldUpdate =
    | SetName(name: string)
    | SetLocation(location: string)
    | SetDescription(description: string)
    | MergePrecos(normal: Option<real>, mensalista: Option<real>)

  function Apply(q: QuadraInput, u: FieldUpdate): (r: QuadraInput)
    ensures u.SetName? ==> r == q.(name := u.name)
    ensures u.SetLocation? ==> r == q.(location := u.location)
    ensures u.SetDescription? ==> r == q.(description := u.description)
    ensures u.MergePrecos? ==>
      && r.(normal := q.normal, mensalista := q.mensalista) == q
      && r.normal == (if u.normal.Some? then u.normal.value else q.normal)
      && r.mensalista == (if u.mensalista.Some? then u.mensalista.value else q.mensalista)
  {
    match u
    case SetName(n) => q.(name := n)
    case SetLocation(l) => q.(location := l)
    case SetDescription(d) => q.(description := d)
    case MergePrecos(n, m) => q.(normal := n.GetOr(q.normal), mensalista := m.GetOr(q.mensalista))
  }

  /** The list after updateQuadra. */
  function Updated(s: seq<QuadraInput>, index: nat, u: FieldUpdate): (r: seq<QuadraInput>)
    requires index < |s|
    ensures |r| == |s| && r[index] == Apply(s[index], u)
    ensures forall j :: 0 <= j < |s| && j != index ==> r[j] == s[j]
  {
    s[index := Apply(s[index], u)]
  }

  /** updateQuadra: a copy of the list, then the one entry written in the copy. */
  method UpdateQuadra(s: seq<QuadraInput>, index: nat, u: FieldUpdate) returns (r: seq<QuadraInput>)
    requires index < |s|
    ensures r == Updated(s, index, u)
  {
    var copy := new QuadraInput[|s|](j requires 0 <= j < |s| => s[j]);
    copy[index] := Apply(copy[index], u);
    r := copy[..];
  }

  /** A control of the page. Remove is shown only while the list holds more than one entry,
      and each control names an entry of the list. */
  datatype Action = Add | Remove(index: int) | Edit(index: int, update: FieldUpdate)

  predicate Offered(s: seq<QuadraInput>, a: Action)
  {
    match a
    case Add => true
    case Remove(i) => |s| > 1 && 0 <= i < |s|
    case Edit(i, _) => 0 <= i < |s|
  }

  /** The list after a run of clicks; a control not on screen cannot be clicked. */
  function Replay(s: seq<QuadraInput>, actions: seq<Action>): seq<QuadraInput>
    decreases |actions|
  {
    if actions == [] then s
    else
      var a := actions[0];
      var next :=
        if !Offered(s, a) then s
        else match a
          case Add => AddQuadra(s)
          case Remove(i) => RemoveQuadra(s, i)
          case Edit(i, u) => Updated(s, i, u);
      Replay(next, actions[1..])
  }

  /** Whatever the clicks, the list never becomes empty. */
  lemma {:induction false} NeverEmpty(s: seq<QuadraInput>, actions: seq<Action>)
    requires |s| >= 1
    ensures |Replay(s, actions)| >= 1
    decreases |actions|
  {
    if actions != [] {
      var a := actions[0];
      var next :=
        if !Offered(s, a) then s
        else match a
          case Add => AddQuadra(s)
          case Remove(i) => RemoveQuadra(s, i)
          case Edit(i, u) => Updated(s, i, u);
      NeverEmpty(next, actions[1..]);
    }
  }

  /** The page's check of one entry: name and location filled, both prices positive; the
      description may be empty. */
  predicate Complete(q: QuadraInput)
  {
    q.name != "" && q.location != "" && q.normal > 0.0 && q.mensalista > 0.0
  }

  /** quadrasValidas: every entry is complete. */
  function QuadrasValidas(s: seq<QuadraInput>): (r: bool)
    ensures r <==> forall j :: 0 <= j < |s| ==> Complete(s[j])
  {
    if s == [] then true else Complete(s[0]) && QuadrasValidas(s[1..])
  }

  /** The blank entry the page starts with does not pass. */
  lemma InitialIsNotValid()
    ensures !QuadrasValidas(InitialQuadras())
  {
  }

  const MissingId := "ID do usuário não encontrado na sessão"
  const Incomplete := "Por favor, preencha todos os campos obrigatórios das quadras"

  /** handleSubmit up to the fetch: the session's user id is checked first, then the
      entries; the request carries the user's name and email (or empty texts) as company
      name and contact. */
  function Submit(sessionId: Option<int>, sessionName: Option<string>, sessionEmail: Option<string>,
                  s: seq<QuadraInput>): (r: Result<CompleteRegistrationRoute.Request, string>)
    ensures !TruthyId(sessionId) ==> r == Err(MissingId)
    ensures TruthyId(sessionId) && !QuadrasValidas(s) ==> r == Err(Incomplete)
    ensures r.Ok? <==> TruthyId(sessionId) && QuadrasValidas(s)
    ensures r.Ok? ==> r.value.userId == sessionId && r.value.quadras == s
    ensures r.Ok? ==> r.value.empresaName == (if TruthyText(sessionName) then sessionName.value else "")
    ensures r.Ok? ==> r.value.contact == (if TruthyText(sessionEmail) then sessionEmail.value else "")
  {
    if !TruthyId(sessionId) then Err(MissingId)
    else if !QuadrasValidas(s) then Err(Incomplete)
    else Ok(CompleteRegistrationRoute.Request(sessionId, sessionName.GetOr(""), sessionEmail.GetOr(""), s))
  }

  /** A request the page sends passes the route's userId check, and every court the route
      would create from it has a name, a location and positive prices. */
  lemma SubmittedIsWellFormed(sessionId: Option<int>, sessionName: Option<string>, sessionEmail: Option<string>,
                              s: seq<QuadraInput>, firstId: int, empresaId: int)
    requires Submit(sessionId, sessionName, sessionEmail, s).Ok?
    ensures TruthyId(Submit(sessionId, sessionName, sessionEmail, s).value.userId)
    ensures var qs := CompleteRegistrationRoute.CreatedQuadras(s, firstId, empresaId);
      forall q :: q in qs ==>
        q.name != "" && q.location != "" && q.precoNormal.Some? && q.precoNormal.value > 0.0
        && q.precoMensalista.Some? && q.precoMensalista.value > 0.0
  {
    var qs := CompleteRegistrationRoute.CreatedQuadras(s, firstId, empresaId);
    forall q | q in qs
      ensures q.name != "" && q.location != "" && q.precoNormal.Some? && q.precoNormal.value > 0.0
              && q.precoMensalista.Some? && q.precoMensalista.value > 0.0
    {
      var k :| 0 <= k < |qs| && qs[k] == q;
      assert Complete(s[k]);
    }
  }
}
