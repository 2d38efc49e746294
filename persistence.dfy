/** The database as one mutable object: a table per entity, each a sequence of rows in
    insertion order, and the id counter new rows draw from. */
module Persistence {
  import opened Tables
  import opened Domain

  class Store {
    var users: seq<User>
    var empresas: seq<Empresa>
    var quadras: seq<Quadra>
    var prices: seq<Price>
    var quadraPrices: seq<QuadraPrice>
    var horarios: seq<Horario>
    var agendamentos: seq<Agendamento>
    var nextId: int

    /** All tables at this instant. */
    function Snapshot(): Db
      reads this
    {
      Db(users, empresas, quadras, prices, quadraPrices, horarios, agendamentos, nextId)
    }

    ghost predicate Valid()
      reads this
    {
      Snapshot().Valid()
    }

    /** An empty database whose first row will get id 1. */
    constructor ()
      ensures Valid()
      ensures Snapshot() == Db([], [], [], [], [], [], [], 1)
    {
      users, empresas, quadras, prices := [], [], [], [];
      quadraPrices, horarios, agendamentos := [], [], [];
      nextId := 1;
    }
  }

  /** Drawing an id from the counter keeps every table's keys below it. */
  lemma BumpKeepsValid(db: Db)
    requires db.Valid()
    ensures db.(nextId := db.nextId + 1).Valid()
  {
  }
}
