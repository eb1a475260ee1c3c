/** The migration ledger (Database.migrate in src/shared/postgres/index.ts). */
module Migrations {
  import opened Wrappers
  import opened Transaction

  const MAX_SAFE := 9007199254740991

  datatype Migration = Migration(version: int, sql: string)

  datatype Row = Row(version: int, checksum: string)

  // The committed ledger, ordered by version, and the scripts whose effects are committed.
  datatype Store = Store(ledger: seq<Row>, scripts: seq<string>)

  datatype Answer = Done | InvalidList | Drift | Failed(failure: Failure)

  // How the database treats one call: the script that fails, if one does, and how the transaction ends.
  // Refused is a transaction that is closed, stopped or cut off at any point before COMMIT.
  datatype Weather = Weather(scriptFails: Option<nat>, thrown: Thrown, end: End)

  predicate ValidList(ms: seq<Migration>) {
    && (forall i | 0 <= i < |ms| :: 0 < ms[i].version <= MAX_SAFE && ms[i].sql != "")
    && (forall i, j | 0 <= i < j < |ms| :: ms[i].version < ms[j].version)
  }

  function RowOf(sha: string -> string, m: Migration): Row {
    Row(m.version, sha(m.sql))
  }

  // The ledger agrees with the list as far as both go, and is not longer.
  predicate Agrees(sha: string -> string, ledger: seq<Row>, ms: seq<Migration>) {
    |ledger| <= |ms| && forall i | 0 <= i < |ledger| :: ledger[i] == RowOf(sha, ms[i])
  }

  predicate Sorted(ledger: seq<Row>) {
    forall i, j | 0 <= i < j < |ledger| :: ledger[i].version < ledger[j].version
  }

  // INSERT into a table read in version order; a version that is there already violates its key.
  function Insert(ledger: seq<Row>, row: Row): Option<seq<Row>> {
    if ledger == [] then Some([row])
    else if row.version < ledger[0].version then Some([row] + ledger)
    else if row.version == ledger[0].version then None
    else
      var rest :- Insert(ledger[1..], row);
      Some([ledger[0]] + rest)
  }

  lemma {:induction false} InsertAtEnd(ledger: seq<Row>, row: Row)
    requires forall i | 0 <= i < |ledger| :: ledger[i].version < row.version
    ensures Insert(ledger, row) == Some(ledger + [row])
  {
    if ledger == [] {
      assert ledger + [row] == [row];
    } else {
      InsertAtEnd(ledger[1..], row);
      assert [ledger[0]] + (ledger[1..] + [row]) == ledger + [row];
    }
  }

  // What a store keeps: one script per row, in order, under the row's checksum.
  predicate Consistent(sha: string -> string, s: Store) {
    && Sorted(s.ledger) && |s.ledger| == |s.scripts|
    && forall i | 0 <= i < |s.ledger| :: s.ledger[i].checksum == sha(s.scripts[i])
  }

  function Rows(sha: string -> string, ms: seq<Migration>): (r: seq<Row>)
    ensures |r| == |ms| && forall i | 0 <= i < |ms| :: r[i] == RowOf(sha, ms[i])
  {
    seq(|ms|, i requires 0 <= i < |ms| => RowOf(sha, ms[i]))
  }

  function Scripts(ms: seq<Migration>): (r: seq<string>)
    ensures |r| == |ms| && forall i | 0 <= i < |ms| :: r[i] == ms[i].sql
  {
    seq(|ms|, i requires 0 <= i < |ms| => ms[i].sql)
  }

  // The store once every script of a list has run.
  function Applied(sha: string -> string, s: Store, ms: seq<Migration>): Store
    requires |s.ledger| <= |ms|
  {
    Store(Rows(sha, ms), s.scripts + Scripts(ms[|s.ledger|..]))
  }

  // The store and the answer of one call.
  function Migrated(sha: string -> string, s: Store, ms: seq<Migration>, w: Weather): (Store, Answer) {
    if !ValidList(ms) then (s, InvalidList)
    else if w.end.Refused? then (s, Failed(w.end.why))
    else if !Agrees(sha, s.ledger, ms) then (s, Drift)
    else if w.scriptFails.Some? && |s.ledger| <= w.scriptFails.value < |ms| then (s, Failed(Map(w.thrown)))
    else
      (if Kept(w.end) then Applied(sha, s, ms) else s, if w.end.Acknowledged? then Done else Failed(CommitUncertain))
  }

  // The validation loop: versions are positive safe integers that strictly increase.
  method Validate(ms: seq<Migration>) returns (valid: bool)
    ensures valid == ValidList(ms)
  {
    var previous := 0;
    for i := 0 to |ms|
      invariant forall k | 0 <= k < i :: 0 < ms[k].version <= previous && ms[k].version <= MAX_SAFE && ms[k].sql != ""
      invariant forall k, l | 0 <= k < l < i :: ms[k].version < ms[l].version
      invariant previous == if i == 0 then 0 else ms[i - 1].version
    {
      var m := ms[i];
      if m.version > MAX_SAFE || m.version <= previous || m.sql == "" {
        return false;
      }
      previous := m.version;
    }
    return true;
  }

  // Inserting the next row of a valid list puts it last.
  lemma InsertNext(sha: string -> string, ms: seq<Migration>, i: nat)
    requires ValidList(ms) && i < |ms|
    ensures Insert(Rows(sha, ms[..i]), RowOf(sha, ms[i])) == Some(Rows(sha, ms[..i + 1]))
  {
    InsertAtEnd(Rows(sha, ms[..i]), RowOf(sha, ms[i]));
    assert Rows(sha, ms[..i + 1]) == Rows(sha, ms[..i]) + [RowOf(sha, ms[i])];
  }

  // Where comparing ends and applying begins.
  lemma AgreedPrefix(sha: string -> string, ledger: seq<Row>, ms: seq<Migration>)
    requires Agrees(sha, ledger, ms)
    ensures ledger == Rows(sha, ms[..|ledger|]) && Scripts(ms[|ledger|..|ledger|]) == []
  {
  }

  lemma ScriptsNext(ms: seq<Migration>, from: nat, i: nat)
    requires from <= i < |ms|
    ensures Scripts(ms[from..i + 1]) == Scripts(ms[from..i]) + [ms[i].sql]
  {
  }

  class Runner {
    const sha: string -> string
    var ledger: seq<Row>
    var scripts: seq<string>

    function View(): Store
      reads this
    {
      Store(ledger, scripts)
    }

    constructor (sha: string -> string)
      ensures this.sha == sha && View() == Store([], [])
    {
      this.sha := sha;
      ledger, scripts := [], [];
    }

    // The body of the transaction: compare the rows that are there, run and record the others.
    method Apply(ms: seq<Migration>, w: Weather) returns (r: Answer, rows: seq<Row>, ran: seq<string>)
      requires ValidList(ms)
      ensures r == Drift <==> !Agrees(sha, ledger, ms)
      ensures r == Failed(Map(w.thrown)) <==>
              Agrees(sha, ledger, ms) && w.scriptFails.Some? && |ledger| <= w.scriptFails.value < |ms|
      ensures r == Drift || r == Failed(Map(w.thrown)) || r == Done
      ensures r == Done ==> rows == Rows(sha, ms) && ran == scripts + Scripts(ms[|ledger|..])
    {
      hide Rows, Scripts, Insert, ValidList, Map;
      rows, ran := ledger, scripts;
      var count := |ledger|;
      if count > |ms| { return Drift, rows, ran; }
      for i := 0 to |ms|
        invariant forall k | 0 <= k < i && k < count :: ledger[k] == RowOf(sha, ms[k])
        invariant rows == if i <= count then ledger else Rows(sha, ms[..i])
        invariant ran == if i <= count then scripts else scripts + Scripts(ms[count..i])
        invariant w.scriptFails.Some? && count <= w.scriptFails.value < |ms| ==> i <= w.scriptFails.value
      {
        var checksum := sha(ms[i].sql);
        if i < count {
          if rows[i].version != ms[i].version || rows[i].checksum != checksum { return Drift, rows, ran; }
        } else if w.scriptFails == Some(i) {
          return Failed(Map(w.thrown)), rows, ran;
        } else {
          if i == count { AgreedPrefix(sha, ledger, ms); }
          InsertNext(sha, ms, i);
          ScriptsNext(ms, count, i);
          ran := ran + [ms[i].sql];
          rows := Insert(rows, Row(ms[i].version, checksum)).value;
        }
      }
      if |ms| == count { AgreedPrefix(sha, ledger, ms); }
      assert ms[..|ms|] == ms && ms[count..|ms|] == ms[count..];
      r := Done;
    }

    method Migrate(ms: seq<Migration>, w: Weather) returns (r: Answer)
      modifies this`ledger, this`scripts
      ensures (View(), r) == Migrated(sha, old(View()), ms, w)
    {
      hide Rows, Scripts;
      var valid := Validate(ms);
      if !valid { return InvalidList; }
      if w.end.Refused? { return Failed(w.end.why); }
      var rows, ran;
      r, rows, ran := Apply(ms, w);
      if r == Done {
        if Kept(w.end) { ledger, scripts := rows, ran; }
        if w.end.Lost? { r := Failed(CommitUncertain); }
      }
    }
  }

  // ----- every sequence of serialized calls -----

  type Call = (seq<Migration>, Weather)

  function Run(sha: string -> string, s: Store, calls: seq<Call>): Store
    decreases |calls|
  {
    if calls == [] then s else Run(sha, Migrated(sha, s, calls[0].0, calls[0].1).0, calls[1..])
  }

  lemma AppliedKeeps(sha: string -> string, s: Store, ms: seq<Migration>)
    requires Consistent(sha, s) && ValidList(ms) && Agrees(sha, s.ledger, ms)
    ensures var s' := Applied(sha, s, ms);
            Consistent(sha, s') && s.ledger <= s'.ledger && s.scripts <= s'.scripts
  {
    var s' := Applied(sha, s, ms);
    var n := |s.ledger|;
    AgreedPrefix(sha, s.ledger, ms);
    hide Agrees;
    assert Rows(sha, ms)[..n] == Rows(sha, ms[..n]);
    forall i | 0 <= i < |ms| ensures s'.ledger[i].checksum == sha(s'.scripts[i]) {
      if i < n {
        assert s'.ledger[i] == s.ledger[i];
      } else {
        assert s'.scripts[i] == ms[n..][i - n].sql == ms[i].sql;
      }
    }
  }

  lemma CallKeeps(sha: string -> string, s: Store, ms: seq<Migration>, w: Weather)
    requires Consistent(sha, s)
    ensures var (s', r) := Migrated(sha, s, ms, w);
            && Consistent(sha, s')
            && s.ledger <= s'.ledger && s.scripts <= s'.scripts
            && (r == Done ==> s'.ledger == Rows(sha, ms))
            && (r == Done <==>
                  && ValidList(ms) && w.end.Acknowledged? && Agrees(sha, s.ledger, ms)
                  && !(w.scriptFails.Some? && |s.ledger| <= w.scriptFails.value < |ms|))
            && (r == InvalidList || r == Drift ==> s' == s)
            && (r == Drift <==> ValidList(ms) && !w.end.Refused? && !Agrees(sha, s.ledger, ms))
            && (w.end.Refused? && ValidList(ms) ==> s' == s && r == Failed(w.end.why))
  {
    hide Map, Rows, Scripts, Consistent, ValidList;
    if ValidList(ms) && Agrees(sha, s.ledger, ms) { AppliedKeeps(sha, s, ms); }
  }

  // Scripts with positive, exactly representable versions, each above the one before it.
  predicate Rising(ms: seq<Migration>) {
    forall i | 0 <= i < |ms| ::
      ms[i].sql != "" && 1 <= ms[i].version <= 9007199254740991 && (i > 0 ==> ms[i - 1].version < ms[i].version)
  }

  lemma {:induction false} RisingIsSorted(ms: seq<Migration>)
    requires Rising(ms)
    ensures forall i, j | 0 <= i < j < |ms| :: ms[i].version < ms[j].version
  {
    if ms == [] {
    } else {
      var before := ms[..|ms| - 1];
      assert Rising(before) by { assert forall i | 0 <= i < |before| :: before[i] == ms[i]; }
      RisingIsSorted(before);
      var last := |ms| - 1;
      forall i | 0 <= i < last ensures ms[i].version < ms[last].version {
        assert ms[last - 1].version < ms[last].version;
        assert before[i] == ms[i] && before[last - 1] == ms[last - 1];
      }
    }
  }

  lemma ValidLists(ms: seq<Migration>)
    ensures ValidList(ms) <==> Rising(ms)
  {
    if Rising(ms) { RisingIsSorted(ms); }
  }

  /** Each answer, by what is there and how the transaction goes: a list that does not rise is refused, and so
      is one that the ledger contradicts or outruns; otherwise the first script to fail is reported, and
      without one the outcome of COMMIT is. What is kept is all of the list, or nothing new. */
  lemma CallAnswers(sha: string -> string, s: Store, ms: seq<Migration>, w: Weather)
    ensures var (s', r) := Migrated(sha, s, ms, w);
            var agreed := |s.ledger| <= |ms|
                          && forall i | 0 <= i < |s.ledger| ::
                               s.ledger[i].version == ms[i].version && s.ledger[i].checksum == sha(ms[i].sql);
            if !Rising(ms) then r == InvalidList && s' == s
            else if w.end.Refused? then r == Failed(w.end.why) && s' == s
            else if !agreed then r == Drift && s' == s
            else if exists k | |s.ledger| <= k < |ms| :: w.scriptFails == Some(k) then
              r == Failed(Map(w.thrown)) && s' == s
            else
              && r == (if w.end.Acknowledged? then Done else Failed(CommitUncertain))
              && s' == if w.end.Acknowledged? || w.end == Lost(true) then
                         Store(Rows(sha, ms), s.scripts + Scripts(ms[|s.ledger|..])) else s
  {
    ValidLists(ms);
    hide ValidList, Rising, Map, Rows, Scripts;
  }

  /** Over any sequence of calls with any lists and any database behaviour: the ledger only grows by
      appending, and the scripts ever committed are exactly its rows', in order and once each. */
  lemma {:induction false} LedgerOnlyGrows(sha: string -> string, s: Store, calls: seq<Call>)
    requires Consistent(sha, s)
    ensures var s' := Run(sha, s, calls);
            && Consistent(sha, s')
            && s.ledger <= s'.ledger && s.scripts <= s'.scripts
    decreases |calls|
  {
    if calls == [] {
    } else {
      CallKeeps(sha, s, calls[0].0, calls[0].1);
      LedgerOnlyGrows(sha, Migrated(sha, s, calls[0].0, calls[0].1).0, calls[1..]);
    }
  }

  /** A list that once succeeded stays a prefix of the ledger, entry by entry: afterwards every shorter or
      differing list is drift, unless the transaction itself is refused, and an extension of it runs only
      what is new. */
  lemma SuccessIsForEver(sha: string -> string, s: Store, ms: seq<Migration>, w: Weather, calls: seq<Call>,
                         again: seq<Migration>, w': Weather)
    requires Consistent(sha, s) && Migrated(sha, s, ms, w).1 == Done
    ensures var s' := Run(sha, Migrated(sha, s, ms, w).0, calls);
            && Rows(sha, ms) <= s'.ledger
            && (ValidList(again) && !(Rows(sha, ms) <= Rows(sha, again)) ==>
                  Migrated(sha, s', again, w') == (s', if w'.end.Refused? then Failed(w'.end.why) else Drift))
            && (Migrated(sha, s', again, w').1 == Done ==>
                  Migrated(sha, s', again, w').0.scripts == s'.scripts + Scripts(again[|s'.ledger|..]))
  {
    CallKeeps(sha, s, ms, w);
    LedgerOnlyGrows(sha, Migrated(sha, s, ms, w).0, calls);
    var s' := Run(sha, Migrated(sha, s, ms, w).0, calls);
    if ValidList(again) && Agrees(sha, s'.ledger, again) {
      assert forall i | 0 <= i < |ms| :: Rows(sha, ms)[i] == s'.ledger[i] == Rows(sha, again)[i];
      assert Rows(sha, ms) == Rows(sha, again)[..|ms|];
    }
  }
}
