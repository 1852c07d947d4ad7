/**
  The server's in-memory thingamabob table: a map from id to name and the
  counter that hands out the next id, with the list, get, create, update and
  delete handlers. The id parameter arrives as text and the request body as
  its parsed name, or None when it does not parse.
 */
module Thingamabobs {
  import opened Wrappers
  import opened GoText
  import opened Server

  datatype Thingamabob = Thingamabob(name: string)

  predicate StrictlyAscending(rows: seq<Row>)
  {
    forall i, j :: 0 <= i < j < |rows| ==> rows[i].id < rows[j].id
  }

  predicate DistinctIds(rows: seq<Row>)
  {
    forall i, j :: 0 <= i < j < |rows| ==> rows[i].id != rows[j].id
  }

  lemma AscendingCons(h: Row, t: seq<Row>)
    requires StrictlyAscending(t)
    requires forall j :: 0 <= j < |t| ==> h.id < t[j].id
    ensures StrictlyAscending([h] + t)
  {
  }

  /** Puts `x` into its place in a listing sorted by id. */
  function Insert(x: Row, s: seq<Row>): (t: seq<Row>)
    requires StrictlyAscending(s)
    requires forall r :: r in s ==> r.id != x.id
    ensures StrictlyAscending(t)
    ensures multiset(t) == multiset(s) + multiset{x}
  {
    if |s| == 0 then [x]
    else if x.id < s[0].id then
      assert forall j :: 0 <= j < |s| ==> x.id < s[j].id by {
        forall j | 0 <= j < |s| ensures x.id < s[j].id {
          if j > 0 {
            assert s[0].id < s[j].id;
          }
        }
      }
      AscendingCons(x, s);
      [x] + s
    else
      var tail := Insert(x, s[1..]);
      assert forall j :: 0 <= j < |tail| ==> s[0].id < tail[j].id by {
        forall j | 0 <= j < |tail| ensures s[0].id < tail[j].id {
          assert tail[j] in multiset(tail);
          if tail[j] != x {
            assert tail[j] in multiset(s[1..]);
            var k :| 0 <= k < |s[1..]| && s[1..][k] == tail[j];
            assert s[k + 1] == tail[j];
          } else {
            assert s[0] in s;
          }
        }
      }
      AscendingCons(s[0], tail);
      assert s == [s[0]] + s[1..];
      [s[0]] + tail
  }

  /** Listings with the same multiset of rows hold the same rows. */
  lemma SameRows(a: seq<Row>, b: seq<Row>)
    requires multiset(a) == multiset(b)
    ensures forall r :: r in a <==> r in b
  {
    forall r ensures r in a <==> r in b {
      assert r in a <==> r in multiset(a);
      assert r in b <==> r in multiset(b);
    }
  }

  lemma DistinctTail(s: seq<Row>)
    requires |s| > 0 && DistinctIds(s)
    ensures DistinctIds(s[1..])
    ensures forall r :: r in s[1..] ==> r.id != s[0].id
  {
  }

  /** sort.Slice by ascending id: the rows ordered by id, none lost or added. */
  function SortById(s: seq<Row>): (t: seq<Row>)
    requires DistinctIds(s)
    ensures StrictlyAscending(t)
    ensures multiset(t) == multiset(s)
  {
    if |s| == 0 then []
    else
      DistinctTail(s);
      var sorted := SortById(s[1..]);
      SameRows(sorted, s[1..]);
      assert s == [s[0]] + s[1..];
      Insert(s[0], sorted)
  }

  lemma Inhabited(keys: set<int>)
    requires keys != {}
    ensures exists k :: k in keys
  {
    if forall k :: k !in keys {
      assert false;
    }
  }

  /** The next key a `range` over a Go map yields: any one not yet visited, in no fixed order. */
  method NextKey(keys: set<int>) returns (k: int)
    requires keys != {}
    ensures k in keys
  {
    Inhabited(keys);
    k :| k in keys;
  }

  class Store {
    var db: map<int, Thingamabob>
    var nextId: int

    /** Every stored id is below the counter, so the counter's value is always free. */
    ghost predicate Valid()
      reads this
    {
      forall id :: id in db ==> id < nextId
    }

    /** The table as the server starts: two thingamabobs and the counter at 3. */
    constructor ()
      ensures Valid()
      ensures db == map[1 := Thingamabob("Thingamabob 1"), 2 := Thingamabob("Thingamabob 2")]
      ensures nextId == 3
    {
      db := map[1 := Thingamabob("Thingamabob 1"), 2 := Thingamabob("Thingamabob 2")];
      nextId := 3;
    }

    /**
      getThingamabobs: every entry once, as {id, name}, in strictly ascending
      id order. The rows are collected in whatever order the map yields them
      and then sorted.
     */
    method GetAll() returns (resp: Response)
      ensures resp.status == StatusOK && resp.body.Items?
      ensures StrictlyAscending(resp.body.rows)
      ensures forall r :: r in resp.body.rows <==> r.id in db && db[r.id].name == r.name
    {
      var rows: seq<Row> := [];
      var remaining := db.Keys;
      while remaining != {}
        invariant remaining <= db.Keys
        invariant DistinctIds(rows)
        invariant forall r :: r in rows <==> r.id in db && r.id !in remaining && db[r.id].name == r.name
        decreases remaining
      {
        var id := NextKey(remaining);
        assert forall i :: 0 <= i < |rows| ==> rows[i].id != id by {
          forall i | 0 <= i < |rows| ensures rows[i].id != id {
            assert rows[i] in rows;
          }
        }
        rows := rows + [Row(id, db[id].name)];
        remaining := remaining - {id};
      }
      var sorted := SortById(rows);
      SameRows(sorted, rows);
      resp := Response(StatusOK, Items(sorted));
    }

    /**
      getThingamabob: 400 when the id is not an integer, the entry when it
      exists, and 404 with a message otherwise.
     */
    method GetOne(paramId: string) returns (resp: Response)
      ensures Atoi(paramId).None? ==> resp == Response(StatusBadRequest, StatusText)
      ensures Atoi(paramId).Some? && Atoi(paramId).value in db ==>
        resp == Response(StatusOK, Item(Atoi(paramId).value, db[Atoi(paramId).value].name))
      ensures Atoi(paramId).Some? && Atoi(paramId).value !in db ==>
        resp == Response(StatusNotFound, Message("Thingamabob not found"))
    {
      var parsed := Atoi(paramId);
      if parsed.None? {
        return Response(StatusBadRequest, StatusText);
      }
      var id := parsed.value;
      if id in db {
        resp := Response(StatusOK, Item(id, db[id].name));
      } else {
        resp := Response(StatusNotFound, Message("Thingamabob not found"));
      }
    }

    /**
      createThingamabob: 400 when the body does not parse; otherwise the name
      is stored under the counter's value, which was free, that id is
      returned, and the counter moves up by one.
     */
    method Create(body: Option<string>) returns (resp: Response)
      requires Valid()
      modifies this
      ensures Valid()
      ensures body.None? ==>
        resp == Response(StatusBadRequest, StatusText) && db == old(db) && nextId == old(nextId)
      ensures body.Some? ==>
        && old(nextId) !in old(db)
        && db == old(db)[old(nextId) := Thingamabob(body.value)]
        && nextId == old(nextId) + 1
        && resp == Response(StatusOK, Item(old(nextId), body.value))
    {
      if body.None? {
        return Response(StatusBadRequest, StatusText);
      }
      db := db[nextId := Thingamabob(body.value)];
      var thisId := nextId;
      nextId := nextId + 1;
      resp := Response(StatusOK, Item(thisId, body.value));
    }

    /**
      updateThingamabob: 400 for an empty id; 404 for an id that is not an
      integer or not in the table; for an existing id, 400 when the body does
      not parse and otherwise only that entry's name changes. The body is
      parsed only after the id is found.
     */
    method Update(paramId: string, body: Option<string>) returns (resp: Response)
      requires Valid()
      modifies this
      ensures Valid() && nextId == old(nextId)
      ensures paramId == "" ==> resp == Response(StatusBadRequest, StatusText) && db == old(db)
      ensures paramId != "" && (Atoi(paramId).None? || Atoi(paramId).value !in old(db)) ==>
        resp == Response(StatusNotFound, StatusText) && db == old(db)
      ensures paramId != "" && Atoi(paramId).Some? && Atoi(paramId).value in old(db) ==>
        var id := Atoi(paramId).value;
        if body.None? then resp == Response(StatusBadRequest, StatusText) && db == old(db)
        else resp == Response(StatusOK, Item(id, body.value)) && db == old(db)[id := Thingamabob(body.value)]
    {
      if paramId == "" {
        return Response(StatusBadRequest, StatusText);
      }
      var parsed := Atoi(paramId);
      if parsed.Some? && parsed.value in db {
        var id := parsed.value;
        if body.None? {
          return Response(StatusBadRequest, StatusText);
        }
        var thingamabob := db[id].(name := body.value);
        db := db[id := thingamabob];
        return Response(StatusOK, Item(id, body.value));
      }
      resp := Response(StatusNotFound, StatusText);
    }

    /**
      deleteThingamabob: 400 for an empty id; 204 after removing exactly that
      key when it exists; 404 for an id that is not an integer or not in the
      table.
     */
    method Delete(paramId: string) returns (resp: Response)
      requires Valid()
      modifies this
      ensures Valid() && nextId == old(nextId)
      ensures paramId == "" ==> resp == Response(StatusBadRequest, StatusText) && db == old(db)
      ensures paramId != "" && Atoi(paramId).Some? && Atoi(paramId).value in old(db) ==>
        resp == Response(StatusNoContent, StatusText) && db == old(db) - {Atoi(paramId).value}
      ensures paramId != "" && (Atoi(paramId).None? || Atoi(paramId).value !in old(db)) ==>
        resp == Response(StatusNotFound, StatusText) && db == old(db)
    {
      if paramId == "" {
        return Response(StatusBadRequest, StatusText);
      }
      var parsed := Atoi(paramId);
      if parsed.Some? && parsed.value in db {
        db := db - {parsed.value};
        return Response(StatusNoContent, StatusText);
      }
      resp := Response(StatusNotFound, StatusText);
    }
  }

  /**
    What a client sees across a create, a read, an update and a delete of the
    same entry through its decimal id: each step succeeds, the read after the
    update sees the new name, the read after the delete gets 404, and the
    table ends as it began with only the counter moved on.
   */
  method CreateReadUpdateDelete(store: Store, name: string, renamed: string)
    requires store.Valid() && MinInt <= store.nextId <= MaxInt
    modifies store
    ensures store.Valid()
    ensures store.db == old(store.db) && store.nextId == old(store.nextId) + 1
  {
    var created := store.Create(Some(name));
    var id := created.body.id;
    var read := store.GetOne(Itoa(id));
    AtoiItoa(id);
    assert read == Response(StatusOK, Item(id, name));
    var updated := store.Update(Itoa(id), Some(renamed));
    assert updated.status == StatusOK;
    read := store.GetOne(Itoa(id));
    assert read.body == Item(id, renamed);
    var deleted := store.Delete(Itoa(id));
    assert deleted.status == StatusNoContent;
    read := store.GetOne(Itoa(id));
    assert read.status == StatusNotFound;
    assert store.db == old(store.db);
  }
}
