/** The persistent store as a map from task ID to the snapshot last saved.
    Saving always succeeds and encoding loses nothing. */
module BadgerStore {
  import opened Basics
  import opened Tasks

  /** `keys` lists the stored IDs, each once: the order of a walk over them. */
  ghost predicate WalksOver(keys: seq<TaskId>, db: map<TaskId, Record>) {
    Enumerates(keys, db.Keys)
  }

  /** The records saved under the given IDs, in that order. */
  function Records(db: map<TaskId, Record>, keys: seq<TaskId>): seq<Record>
    requires forall id :: id in keys ==> id in db
  {
    seq(|keys|, i requires 0 <= i < |keys| => assert keys[i] in keys; db[keys[i]])
  }

  function WithState(rs: seq<Record>, state: State): seq<Record> {
    if rs == [] then []
    else WithState(rs[..|rs| - 1], state) + if rs[|rs| - 1].state == state then [rs[|rs| - 1]] else []
  }

  /** The records in the state, as often as they are listed, and no others. */
  lemma {:induction false} WithStateExactly(rs: seq<Record>, state: State, r: Record)
    ensures multiset(WithState(rs, state))[r] == if r.state == state then multiset(rs)[r] else 0
  {
    if rs != [] {
      var rest, last := rs[..|rs| - 1], rs[|rs| - 1];
      WithStateExactly(rest, state, r);
      assert rs == rest + [last];
    }
  }

  /** ... and in the order of the list. */
  lemma {:induction false} WithStateInOrder(rs: seq<Record>, state: State)
    ensures PickedFrom(WithState(rs, state), rs)
  {
    if rs != [] {
      var rest, last := rs[..|rs| - 1], rs[|rs| - 1];
      WithStateInOrder(rest, state);
      PickOneMore(WithState(rest, state), rest, last);
      assert rs == rest + [last] && WithState(rest, state) + [] == WithState(rest, state);
      hide PickedFrom;
    }
  }

  /** What recovery makes of a snapshot of an unfinished task. */
  function Reset(r: Record): Record {
    r.(state := Queued, workerId := EMPTY_TEXT)
  }

  function Recoverable(rs: seq<Record>): seq<Record> {
    if rs == [] then []
    else Recoverable(rs[..|rs| - 1]) + if rs[|rs| - 1].state.IsTerminal() then [] else [Reset(rs[|rs| - 1])]
  }

  /** Recovery hands back a record exactly when it is the reset snapshot of an
      unfinished task. */
  lemma {:induction false} RecoverableExactly(rs: seq<Record>, r: Record)
    ensures r in Recoverable(rs) <==>
      exists n :: n in rs && n.state != Completed && n.state != Dead && r == n.(state := Queued, workerId := Text(""))
  {
    if rs != [] {
      var last := rs[|rs| - 1];
      RecoverableExactly(rs[..|rs| - 1], r);
      assert rs == rs[..|rs| - 1] + [last];
    }
  }

  /** The records that are neither COMPLETED nor DEAD, in order. */
  function Unfinished(rs: seq<Record>): seq<Record> {
    if rs == [] then []
    else
      var last := rs[|rs| - 1];
      Unfinished(rs[..|rs| - 1]) + if last.state == Completed || last.state == Dead then [] else [last]
  }

  lemma {:induction false} UnfinishedInOrder(rs: seq<Record>)
    ensures PickedFrom(Unfinished(rs), rs)
  {
    if rs != [] {
      var rest, last := rs[..|rs| - 1], rs[|rs| - 1];
      UnfinishedInOrder(rest);
      PickOneMore(Unfinished(rest), rest, last);
      assert rs == rest + [last] && Unfinished(rest) + [] == Unfinished(rest);
      hide PickedFrom;
    }
  }

  lemma {:induction false} UnfinishedExactly(rs: seq<Record>, n: Record)
    ensures multiset(Unfinished(rs))[n] == if n.state == Completed || n.state == Dead then 0 else multiset(rs)[n]
  {
    if rs != [] {
      hide Unfinished;
      var rest, last := rs[..|rs| - 1], rs[|rs| - 1];
      UnfinishedExactly(rest, n);
      LastUnfinished(rs);
      SelectOneMore(Unfinished(rest), rs, Unfinished(rs), last.state != Completed && last.state != Dead,
                    n, n.state != Completed && n.state != Dead);
    }
  }

  lemma LastUnfinished(rs: seq<Record>)
    requires rs != []
    ensures var rest, last := rs[..|rs| - 1], rs[|rs| - 1];
      Unfinished(rs) == if last.state != Completed && last.state != Dead then Unfinished(rest) + [last]
                        else Unfinished(rest)
  {
    assert Unfinished(rs[..|rs| - 1]) + [] == Unfinished(rs[..|rs| - 1]);
  }

  lemma {:induction false} RecoveredOneByOne(rs: seq<Record>)
    ensures |Recoverable(rs)| == |Unfinished(rs)|
    ensures forall i :: 0 <= i < |Unfinished(rs)| ==>
      Recoverable(rs)[i] == Unfinished(rs)[i].(state := Queued, workerId := Text(""))
  {
    if rs != [] {
      RecoveredOneByOne(rs[..|rs| - 1]);
    }
  }

  /** Recovery hands back every unfinished snapshot, reset, as often as it is
      listed and in that order. */
  lemma RecoverableInOrder(rs: seq<Record>) returns (unfinished: seq<Record>)
    ensures PickedFrom(unfinished, rs) && |Recoverable(rs)| == |unfinished|
    ensures forall i :: 0 <= i < |unfinished| ==>
      Recoverable(rs)[i] == unfinished[i].(state := Queued, workerId := Text(""))
    ensures forall n ::
      multiset(unfinished)[n] == if n.state == Completed || n.state == Dead then 0 else multiset(rs)[n]
  {
    unfinished := Unfinished(rs);
    UnfinishedInOrder(rs);
    RecoveredOneByOne(rs);
    forall n
      ensures multiset(unfinished)[n] == if n.state == Completed || n.state == Dead then 0 else multiset(rs)[n]
    {
      UnfinishedExactly(rs, n);
    }
    hide PickedFrom, Recoverable, Unfinished;
  }

  class Store {
    var db: map<TaskId, Record>

    constructor ()
      ensures db == map[]
    {
      db := map[];
    }

    method Save(t: Task)
      modifies this
      ensures db == old(db)[t.spec.id := t.Value()]
    {
      db := db[t.spec.id := Record(t.spec, t.state, t.attempt, t.workerId, t.output, t.error, t.exitCode,
                                   t.assignedAt, t.startedAt, t.completedAt, t.nextRetryAt)];
    }

    method Delete(id: TaskId)
      modifies this
      ensures db == old(db) - {id}
    {
      db := db - {id};
    }

    method List() returns (all: seq<Record>, ghost keys: seq<TaskId>)
      ensures WalksOver(keys, db) && all == Records(db, keys)
      ensures |all| == |keys| && forall i :: 0 <= i < |keys| ==> all[i] == db[keys[i]]
    {
      all, keys := [], [];
      var left := db.Keys;
      while left != {}
        invariant left <= db.Keys
        invariant Distinct(keys)
        invariant forall id :: id in keys <==> id in db.Keys - left
        invariant all == Records(db, keys)
        decreases left
      {
        var id :| id in left;
        assert id !in keys;
        all := all + [db[id]];
        keys := keys + [id];
        left := left - {id};
      }
    }

    method GetByState(state: State) returns (result: seq<Record>, ghost keys: seq<TaskId>)
      ensures WalksOver(keys, db) && result == WithState(Records(db, keys), state)
    {
      var all;
      all, keys := List();
      result := [];
      for i := 0 to |all|
        invariant result == WithState(all[..i], state)
      {
        assert all[..i + 1][..i] == all[..i];
        if all[i].state == state {
          result := result + [all[i]];
        }
      }
      assert all[..|all|] == all;
    }

    method RecoverTasks() returns (recoverable: seq<Record>, ghost keys: seq<TaskId>)
      ensures WalksOver(keys, db) && recoverable == Recoverable(Records(db, keys))
    {
      var all;
      all, keys := List();
      recoverable := [];
      for i := 0 to |all|
        invariant recoverable == Recoverable(all[..i])
      {
        assert all[..i + 1][..i] == all[..i];
        var t := all[i];
        if !t.state.IsTerminal() {
          t := t.(state := Queued);
          t := t.(workerId := EMPTY_TEXT);
          recoverable := recoverable + [t];
        }
      }
      assert all[..|all|] == all;
    }
  }
}
