/**
 * The session table: one record of multi-step conversation state per Telegram user. A write
 * merges the new fields into the user's existing record (later fields win, as with object
 * spread) or appends a record for a user that has none; a clear takes the user's record out.
 */
module Sessions {
  import opened Wrappers
  import opened Lists

  /** The state fields the handlers use. */
  datatype Key = Mode | OrderId | Field | FileId

  /** A record's state. A field written with an undefined value is present and `None`. */
  type State = map<Key, Option<string>>

  datatype Session = Session(userId: int, state: State)

  /** Reading a field: absent and undefined read alike. */
  function Get(st: State, k: Key): Option<string> {
    if k in st then st[k] else None
  }

  /** The table's position of `userId`'s record, or -1. */
  function IndexOfUser(ss: seq<Session>, userId: int): int {
    FindIndex(ss, (s: Session) => s.userId == userId)
  }

  /** `getSession`: the state of the first record for `userId`. */
  function Lookup(ss: seq<Session>, userId: int): (r: Option<State>)
    ensures r.None? <==> forall s :: s in ss ==> s.userId != userId
    ensures r.Some? ==> Session(userId, r.value) in ss
  {
    var i := IndexOfUser(ss, userId);
    if i < 0 then None else Some(ss[i].state)
  }

  /** `setSession`: merge into the user's record, or append one. */
  function Put(ss: seq<Session>, userId: int, st: State): seq<Session> {
    var i := IndexOfUser(ss, userId);
    if i < 0 then ss + [Session(userId, st)]
    else ss[i := Session(userId, ss[i].state + st)]
  }

  /** `clearSession`: take the user's first record out, if there is one. */
  function Clear(ss: seq<Session>, userId: int): seq<Session> {
    var i := IndexOfUser(ss, userId);
    if i < 0 then ss else RemoveAt(ss, i)
  }

  /** At most one record per user. */
  predicate Unique(ss: seq<Session>) {
    forall i, j :: 0 <= i < j < |ss| ==> ss[i].userId != ss[j].userId
  }

  /** The state a write leaves for the writer: new fields overwrite, the others are kept. */
  lemma PutMerges(ss: seq<Session>, userId: int, st: State, k: Key)
    ensures Lookup(Put(ss, userId, st), userId).Some?
    ensures var after := Lookup(Put(ss, userId, st), userId).value;
      Get(after, k) == if k in st then st[k] else if Lookup(ss, userId).Some? then Get(Lookup(ss, userId).value, k) else None
  {
    var i := IndexOfUser(ss, userId);
    var ss' := Put(ss, userId, st);
    var k := IndexOfUser(ss', userId);
    if i < 0 {
      assert forall j :: 0 <= j < |ss| ==> ss'[j] == ss[j];
      assert ss'[|ss|].userId == userId;
      assert k == |ss|;
    } else {
      assert forall j :: 0 <= j < |ss| ==> ss'[j].userId == ss[j].userId;
      assert k == i;
    }
  }

  /** A write touches only the writer's record. */
  lemma PutOthers(ss: seq<Session>, userId: int, st: State, other: int)
    requires other != userId
    ensures Lookup(Put(ss, userId, st), other) == Lookup(ss, other)
  {
    var i := IndexOfUser(ss, userId);
    var ss' := Put(ss, userId, st);
    var k := IndexOfUser(ss, other);
    var k' := IndexOfUser(ss', other);
    if i < 0 {
      assert forall j :: 0 <= j < |ss| ==> ss'[j] == ss[j];
      assert k' == k;
    } else {
      assert forall j :: 0 <= j < |ss| && j != i ==> ss'[j] == ss[j];
      assert k' == k;
    }
  }

  /** A write grows the table only for a user without a record, and then by one. */
  lemma PutSize(ss: seq<Session>, userId: int, st: State)
    ensures |Put(ss, userId, st)| == |ss| + (if Lookup(ss, userId).None? then 1 else 0)
  {
  }

  /** A write keeps the table at one record per user. */
  lemma PutUnique(ss: seq<Session>, userId: int, st: State)
    requires Unique(ss)
    ensures Unique(Put(ss, userId, st))
  {
    var i := IndexOfUser(ss, userId);
    var ss' := Put(ss, userId, st);
    if i < 0 {
      forall a, b | 0 <= a < b < |ss'| ensures ss'[a].userId != ss'[b].userId {
        if b == |ss| { assert ss'[a] == ss[a]; }
      }
    } else {
      assert forall j :: 0 <= j < |ss| ==> ss'[j].userId == ss[j].userId;
    }
  }

  /** After a clear the user has no record, provided there was at most one. */
  lemma ClearRemoves(ss: seq<Session>, userId: int)
    requires Unique(ss)
    ensures Lookup(Clear(ss, userId), userId).None?
  {
    var i := IndexOfUser(ss, userId);
    var ss' := Clear(ss, userId);
    if i >= 0 {
      forall s | s in ss' ensures s.userId != userId {
        var j :| 0 <= j < |ss'| && ss'[j] == s;
        if j < i { assert s == ss[j]; } else { assert s == ss[j + 1]; }
      }
    }
  }

  /** A clear leaves every other user's record as it was. */
  lemma ClearOthers(ss: seq<Session>, userId: int, other: int)
    requires other != userId
    ensures Lookup(Clear(ss, userId), other) == Lookup(ss, other)
  {
    var i := IndexOfUser(ss, userId);
    var ss' := Clear(ss, userId);
    if i >= 0 {
      var k := IndexOfUser(ss, other);
      var k' := IndexOfUser(ss', other);
      if k < 0 {
        forall j | 0 <= j < |ss'| ensures ss'[j].userId != other {
          assert ss'[j] == (if j < i then ss[j] else ss[j + 1]);
        }
      } else if k < i {
        assert k' == k;
      } else {
        assert k != i;
        assert ss'[k - 1] == ss[k];
        forall j | 0 <= j < k - 1 ensures ss'[j].userId != other {
          assert ss'[j] == (if j < i then ss[j] else ss[j + 1]);
        }
        assert k' == k - 1;
      }
    }
  }

  /** Clearing a user without a record changes nothing. */
  lemma ClearAbsent(ss: seq<Session>, userId: int)
    requires Lookup(ss, userId).None?
    ensures Clear(ss, userId) == ss
  {
  }

  /** A clear keeps the table at one record per user. */
  lemma ClearUnique(ss: seq<Session>, userId: int)
    requires Unique(ss)
    ensures Unique(Clear(ss, userId))
  {
    var i := IndexOfUser(ss, userId);
    var ss' := Clear(ss, userId);
    if i >= 0 {
      forall a, b | 0 <= a < b < |ss'| ensures ss'[a].userId != ss'[b].userId {
        var a0 := if a < i then a else a + 1;
        var b0 := if b < i then b else b + 1;
        assert ss'[a] == ss[a0] && ss'[b] == ss[b0];
      }
    }
  }
}
