/** The event access: the one live event registered for a url and a
    request method. */
module EventAccess {
  import opened Wrappers
  import opened Json
  import opened Entities
  import opened Storage
  import opened AccessBase
  import EventEntity

  /** `WHERE url = :URL AND method = :METHOD AND DELETED = 0`. */
  function ByUrl(url: string, httpMethod: string): Conditions {
    [("URL", JStr(url)), ("METHOD", JStr(httpMethod)), ("DELETED", JInt(0))]
  }

  /** The rows become events by the Event constructor itself, not through
      the access object's factory. */
  function EventBuilder(now: int): Kwargs -> Outcome<Entity> {
    row => (var e :- EventEntity.MakeEvent(row, now); Ok(EventE(e)))
  }

  /** `get_event_data` on an access object whose cached name is `cache`:
      the answer, the records it leaves and the cached name it leaves. The
      records are cleared before the name is read, so an access object
      without a name selects from no table. */
  function EventLookup(cache: string, ts: Tables, url: string, httpMethod: string, now: int)
    : (Outcome<Entity>, seq<Entity>, string)
  {
    if cache !in ts then (Raised(DatabaseError), [], cache)
    else
      var loaded := Materialise(EventBuilder(now), SelectResult(ts, cache, ByUrl(url, httpMethod), [], false));
      if loaded.1.Some? then (Raised(loaded.1.value), loaded.0, cache)
      else
        var g := ResultProperty(cache, loaded.0, true);
        (g.0, loaded.0, g.1)
  }

  /** The select keeps exactly the live rows with the url and the method. */
  lemma ByUrlExact(ts: Tables, rows: seq<Row>, url: string, httpMethod: string)
    ensures forall x :: x in SelectMain(ts, rows, ByUrl(url, httpMethod), []) <==>
      (&& x in rows && SqlEq(Cell(x, "URL"), JStr(url)) && SqlEq(Cell(x, "METHOD"), JStr(httpMethod))
       && SqlEq(Cell(x, "DELETED"), JInt(0)))
  {
    var conds := ByUrl(url, httpMethod);
    SelectWithoutJoinsExact(ts, rows, conds);
    forall x
      ensures Matches(x, conds) <==>
        SqlEq(Cell(x, "URL"), JStr(url)) && SqlEq(Cell(x, "METHOD"), JStr(httpMethod)) && SqlEq(Cell(x, "DELETED"), JInt(0))
    {
      assert conds[0] == ("URL", JStr(url)) && conds[1] == ("METHOD", JStr(httpMethod)) && conds[2] == ("DELETED", JInt(0));
    }
  }

  /** An event is answered only when exactly one row was selected, and it is
      the event built from that row; no row is an EntityNotFound (an
      IndexError, which the distributor answers with 501); several rows are
      always an error. */
  lemma EventLookupSpec(cache: string, ts: Tables, url: string, httpMethod: string, now: int)
    requires cache in ts
    ensures var r := EventLookup(cache, ts, url, httpMethod, now).0;
      var selected := SelectMain(ts, Rows(ts, cache), ByUrl(url, httpMethod), []);
      && (|selected| == 0 ==> r == Raised(EntityNotFound))
      && (|selected| >= 2 ==> r.Raised?)
      && (r.Ok? ==> |selected| == 1 && r.value.EventE?
                    && EventBuilder(now)(SelectResult(ts, cache, ByUrl(url, httpMethod), [], false)[0]) == Ok(r.value))
  {
    var rows := SelectResult(ts, cache, ByUrl(url, httpMethod), [], false);
    var loaded := Materialise(EventBuilder(now), rows);
    if loaded.1.None? {
      ResultSpec(cache, loaded.0, true);
    }
  }

  /** `get_event_data`. */
  method GetEventData(a: DataAccess, url: string, httpMethod: string, now: int) returns (r: Outcome<Entity>)
    modifies a
    ensures (r, a.data, a.cachedName) == EventLookup(old(a.cachedName), a.db.tables, url, httpMethod, now)
  {
    a.data := [];
    // with no records the name property cannot raise
    var named := a.GetName();
    var name := named.value;
    if name !in a.db.tables {
      return Raised(DatabaseError);
    }
    var rows := a.db.Select(name, ByUrl(url, httpMethod), [], false);
    var _ :- a.Load(EventBuilder(now), rows);
    r := a.GetResult(true);
  }
}
