/** /api/courts: the bookable courts with their upcoming time slots. */
module CourtsRoute {
  import opened Wrappers
  import opened Tables
  import opened Domain

  /** The `orderBy: { start: 'asc' }` of the nested slots. */
  predicate EarliestFirst(a: Horario, b: Horario)
  {
    a.start <= b.start
  }

  lemma EarliestFirstIsTotal()
    ensures TotalPreorder(EarliestFirst)
  {
  }

  predicate Upcoming(h: Horario, quadraId: int, now: int)
  {
    h.isActive && h.quadraId == quadraId && h.start >= now
  }

  /** The court's active slots that start at `now` or later, earliest first. */
  function Slots(horarios: seq<Horario>, quadraId: int, now: int): (r: seq<Horario>)
    ensures forall h :: h in r <==> h in horarios && Upcoming(h, quadraId, now)
    ensures forall h :: multiset(r)[h] == (if Upcoming(h, quadraId, now) then multiset(horarios)[h] else 0)
    ensures SortedBy(r, EarliestFirst)
  {
    var mine := Filter(horarios, (h: Horario) => Upcoming(h, quadraId, now));
    EarliestFirstIsTotal();
    SortBySorted(mine, EarliestFirst);
    assert forall h :: h in SortBy(mine, EarliestFirst) <==> h in multiset(mine);
    SortBy(mine, EarliestFirst)
  }

  predicate Bookable(q: Quadra)
  {
    q.isActive && q.available
  }

  /** One entry per active, available court, in stored order, each with its slots. */
  function Courts(db: Db, now: int): (r: seq<Court>)
    ensures |r| == |Filter(db.quadras, Bookable)|
    ensures forall k :: 0 <= k < |r| ==>
      r[k].quadra == Filter(db.quadras, Bookable)[k] && r[k].slots == Slots(db.horarios, r[k].quadra.id, now)
  {
    var shown := Filter(db.quadras, Bookable);
    seq(|shown|, k requires 0 <= k < |shown| => Court(shown[k], Slots(db.horarios, shown[k].id, now)))
  }

  /** GET: 401 without a session; otherwise exactly the bookable courts, each listed with
      its own upcoming active slots only, earliest first. `now` is the clock. */
  function Get(db: Db, session: Option<int>, now: int): (r: Response)
    ensures session.None? ==> r == Unauthorized
    ensures session.Some? ==> r.status == 200 && r.body.CourtList? && r.body.courts == Courts(db, now)
    ensures session.Some? ==> forall q :: (exists c :: c in r.body.courts && c.quadra == q) <==> q in db.quadras && Bookable(q)
    ensures session.Some? ==> forall c, h :: c in r.body.courts && h in c.slots ==>
      h in db.horarios && h.isActive && h.quadraId == c.quadra.id && h.start >= now
    ensures session.Some? ==> forall c :: c in r.body.courts ==> SortedBy(c.slots, EarliestFirst)
  {
    match session
    case None => Unauthorized
    case Some(_) =>
      var courts := Courts(db, now);
      var shown := Filter(db.quadras, Bookable);
      assert forall q :: (exists c :: c in courts && c.quadra == q) <==> q in shown by {
        forall q | q in shown ensures exists c :: c in courts && c.quadra == q {
          var k :| 0 <= k < |shown| && shown[k] == q;
          assert courts[k] in courts;
        }
      }
      Response(200, CourtList(courts))
  }
}
