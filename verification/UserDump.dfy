/**
 dump-user and load-user (v2/lens3/admintool.go): the users as rows of fields,
 and the rows taken back after a sort on their kind.
 */
module UserDump {
  import opened Records
  import opened Registry
  import opened Naming
  import opened Handlers
  import opened Runs
  import opened Sequences
  import T = Tables

  type Row = seq<string>

  // ---- dump-user ----

  function AddRow(u: User): Row { ["ADD", u.uid, u.claim] + u.groups }

  function AddRows(users: seq<User>): seq<Row> {
    if users == [] then []
    else
      var front := AddRows(users[..|users| - 1]);
      var u := users[|users| - 1];
      if u.ephemeral then front else front + [AddRow(u)]
  }

  /** The users to be disabled after they are added. */
  function Disables(users: seq<User>): seq<string> {
    if users == [] then []
    else
      var front := Disables(users[..|users| - 1]);
      var u := users[|users| - 1];
      if u.ephemeral || u.enabled then front else front + [u.uid]
  }

  function DumpRows(users: seq<User>): seq<Row> {
    AddRows(users) + if Disables(users) == [] then [] else [["DISABLE"] + Disables(users)]
  }

  /** Every user of the table once. */
  ghost predicate Lists(list: seq<User>, users: map<string, User>) {
    && (forall i, j | 0 <= i < j < |list| :: list[i].uid != list[j].uid)
    && (forall i | 0 <= i < |list| :: list[i].uid in users && users[list[i].uid] == list[i])
    && (forall u | u in users :: users[u] in list)
  }

  /** adm_dump_user. */
  method DumpUser(t: T.Table) returns (rows: seq<Row>, ghost list: seq<User>)
    requires forall u | u in t.users :: t.users[u].uid == u
    ensures Lists(list, t.users) && rows == DumpRows(list)
  {
    var users := ListUsers(t);
    rows := DumpAdds(users);
    var disables := DumpDisables(users);
    if |disables| > 0 {
      rows := rows + [["DISABLE"] + disables];
    }
    list := users;
  }

  method ListUsers(t: T.Table) returns (users: seq<User>)
    requires forall u | u in t.users :: t.users[u].uid == u
    ensures Lists(users, t.users)
  {
    var uids := T.Table.Scan(t.users);
    users := [];
    var i := 0;
    while i < |uids|
      invariant 0 <= i <= |uids| && |users| == i
      invariant forall j | 0 <= j < i :: users[j] == t.users[uids[j]]
    {
      users := users + [t.users[uids[i]]];
      i := i + 1;
    }
    ListedByScan(t.users, uids, users);
  }

  method DumpAdds(users: seq<User>) returns (rows: seq<Row>)
    ensures rows == AddRows(users)
  {
    rows := [];
    var i := 0;
    while i < |users|
      invariant 0 <= i <= |users|
      invariant rows == AddRows(users[..i])
    {
      assert users[..i + 1][..i] == users[..i];
      if !users[i].ephemeral {
        rows := rows + [["ADD", users[i].uid, users[i].claim] + users[i].groups];
      }
      i := i + 1;
    }
    assert users[..i] == users;
  }

  method DumpDisables(users: seq<User>) returns (disables: seq<string>)
    ensures disables == Disables(users)
  {
    disables := [];
    var i := 0;
    while i < |users|
      invariant 0 <= i <= |users|
      invariant disables == Disables(users[..i])
    {
      assert users[..i + 1][..i] == users[..i];
      if !(users[i].ephemeral || users[i].enabled) {
        disables := disables + [users[i].uid];
      }
      i := i + 1;
    }
    assert users[..i] == users;
  }

  lemma ListedByScan(users: map<string, User>, uids: seq<string>, list: seq<User>)
    requires NoDuplicates(uids) && forall k :: k in uids <==> k in users
    requires forall u | u in users :: users[u].uid == u
    requires |list| == |uids| && forall j | 0 <= j < |uids| :: list[j] == users[uids[j]]
    ensures Lists(list, users)
  {
    forall u | u in users ensures users[u] in list {
      var j :| 0 <= j < |uids| && uids[j] == u;
      assert list[j] == users[u];
    }
  }

  // ---- load-user ----

  /** The order of rows by kind; zero for a kind that is not known. */
  function Ordering(row: Row): int {
    if row == [] then 0
    else if row[0] == "ADD" || row[0] == "MODIFY" then 1
    else if row[0] == "DELETE" then 2
    else if row[0] == "ENABLE" then 3
    else if row[0] == "DISABLE" then 4
    else 0
  }

  /** What a sort on that order, which need not be stable, may make of the rows. */
  ghost predicate Sorting(rows: seq<Row>, sorted: seq<Row>) {
    && multiset(sorted) == multiset(rows)
    && forall i, j | 0 <= i < j < |sorted| :: Ordering(sorted[i]) <= Ordering(sorted[j])
  }

  predicate OfKind(row: Row, kinds: set<string>) { row != [] && row[0] in kinds }

  /** Rows that are not known come first, then additions and changes, then deletions, then
      rows that enable, and rows that disable last. */
  lemma KindsInOrder(rows: seq<Row>, sorted: seq<Row>, i: nat, j: nat)
    requires Sorting(rows, sorted) && i < j < |sorted|
    ensures OfKind(sorted[i], {"DISABLE"}) ==> OfKind(sorted[j], {"DISABLE"})
    ensures OfKind(sorted[i], {"ENABLE"}) ==> OfKind(sorted[j], {"ENABLE", "DISABLE"})
    ensures OfKind(sorted[i], {"DELETE"}) ==> OfKind(sorted[j], {"DELETE", "ENABLE", "DISABLE"})
    ensures OfKind(sorted[i], {"ADD", "MODIFY"}) ==> OfKind(sorted[j], {"ADD", "MODIFY", "DELETE", "ENABLE", "DISABLE"})
  {
    assert Ordering(sorted[i]) <= Ordering(sorted[j]);
    assert "DELETE"[1] != "DISABLE"[1] && "DELETE"[0] != "ENABLE"[0];
  }

  /** So one row of an unknown kind stops a load before anything is done. */
  lemma UnknownStopsAll(db: Store, rows: seq<Row>, sorted: seq<Row>, now: int, row: Row)
    requires Sorting(rows, sorted) && row in rows && !OfKind(row, {"ADD", "MODIFY", "DELETE", "ENABLE", "DISABLE"})
    ensures LoadAll(db, sorted, now) == (db, Fatal)
  {
    assert row in multiset(sorted);
    var k :| 0 <= k < |sorted| && sorted[k] == row;
    if k > 0 {
      KindsInOrder(rows, sorted, 0, k);
      assert Ordering(sorted[0]) <= Ordering(sorted[k]);
    }
  }

  /** The rows one after another, up to a panic or an exception. */
  function LoadAll(db: Store, rows: seq<Row>, now: int): (Store, Status)
    decreases |rows|
  {
    if rows == [] then (db, Okay)
    else
      var (db1, s) := LoadRow(db, rows[0], now);
      if !s.Okay? then (db1, s) else LoadAll(db1, rows[1..], now)
  }

  /** One row, applied to the tables. */
  method LoadUserRow(t: T.Table, row: Row, w: T.World, now: int) returns (s: Status)
    requires Sound(t.View())
    modifies t
    ensures (t.View(), s) == LoadRow(old(t.View()), row, now)
    ensures Sound(t.View())
  {
    LoadRowSound(t.View(), row, now);
    hide Sound, GoodUser, GoodClaim, WithoutUser, AddUser;
    if row == [] {
      return Fatal;
    }
    if row[0] == "ADD" || row[0] == "MODIFY" {
      if !(|row| >= 4 && GoodUser(row[1]) && GoodClaim(row[2]) && forall g | g in row[3..] :: GoodUser(g)) {
        return Fatal;
      }
      var u := User(row[1], row[2], row[3..], true, false, now + LOAD_TERM, now);
      if row[0] == "ADD" {
        t.DeregisterUser(u.uid, w);
      }
      s := t.AddUser(u, now);
    } else if row[0] == "DELETE" || row[0] == "ENABLE" || row[0] == "DISABLE" {
      if exists n | n in row[1..] :: !GoodUser(n) {
        return Fatal;
      }
      s := LoadUserNames(t, row[0], row[1..], w, now);
    } else {
      return Fatal;
    }
  }

  method LoadUserNames(t: T.Table, command: string, names: seq<string>, w: T.World, now: int) returns (s: Status)
    requires Sound(t.View())
    modifies t
    ensures (t.View(), s) == LoadNames(old(t.View()), command, names, now)
  {
    hide Sound, WithoutUser, AddUser;
    s := Okay;
    ghost var start := t.View();
    var i := 0;
    while i < |names|
      invariant 0 <= i <= |names| && s.Okay?
      invariant Sound(t.View())
      invariant LoadNames(start, command, names, now) == LoadNames(t.View(), command, names[i..], now)
    {
      var n := names[i];
      assert names[i..][0] == n && names[i..][1..] == names[i + 1..];
      if n in t.users {
        if command == "DELETE" {
          WithoutUserSound(t.View(), n);
          t.DeregisterUser(n, w);
        } else {
          var u := t.users[n].(enabled := command == "ENABLE");
          AddUserSound(t.View(), u, now);
          s := t.AddUser(u, now);
          if !s.Okay? {
            return;
          }
        }
      }
      i := i + 1;
    }
  }

  /** adm_load_user after the sort. */
  method LoadUser(t: T.Table, rows: seq<Row>, w: T.World, now: int) returns (s: Status)
    requires Sound(t.View())
    modifies t
    ensures (t.View(), s) == LoadAll(old(t.View()), rows, now)
    ensures Sound(t.View())
  {
    hide Sound, LoadRow;
    s := Okay;
    ghost var start := t.View();
    var i := 0;
    while i < |rows|
      invariant 0 <= i <= |rows| && s.Okay?
      invariant Sound(t.View())
      invariant LoadAll(start, rows, now) == LoadAll(t.View(), rows[i..], now)
    {
      assert rows[i..][0] == rows[i] && rows[i..][1..] == rows[i + 1..];
      s := LoadUserRow(t, rows[i], w, now);
      if !s.Okay? {
        return;
      }
      i := i + 1;
    }
  }

  // ---- reachable users can be loaded ----

  predicate LoadableUser(u: User) {
    u.ephemeral || (GoodUser(u.uid) && GoodClaim(u.claim) && u.groups != [] && forall g | g in u.groups :: GoodUser(g))
  }

  ghost predicate Loadable(users: map<string, User>) {
    forall u | u in users :: LoadableUser(users[u])
  }

  lemma LoadablePut(users: map<string, User>, k: string, u: User)
    requires Loadable(users) && LoadableUser(u)
    ensures Loadable(users[k := u])
  {
  }

  lemma LoadableLess(users: map<string, User>, k: string)
    requires Loadable(users)
    ensures Loadable(users - {k})
  {
  }

  lemma {:induction false} LoadNamesLoadable(db: Store, command: string, names: seq<string>, now: int)
    requires Loadable(db.users)
    ensures Loadable(LoadNames(db, command, names, now).0.users)
    decreases |names|
  {
    hide GoodUser, GoodClaim;
    if names == [] {
    } else if names[0] !in db.users {
      LoadNamesLoadable(db, command, names[1..], now);
    } else if command == "DELETE" {
      LoadableLess(db.users, names[0]);
      LoadNamesLoadable(WithoutUser(db, names[0]), command, names[1..], now);
    } else {
      var u := db.users[names[0]].(enabled := command == "ENABLE");
      LoadNamesLoadable(AddUser(db, u, now).0, command, names[1..], now);
    }
  }

  lemma LoadRowLoadable(db: Store, row: Row, now: int)
    requires Loadable(db.users)
    ensures Loadable(LoadRow(db, row, now).0.users)
  {
    hide GoodUser, Loadable, LoadNames, GoodAddRow, AddUser, WithoutUser;
    if row != [] {
      LoadNamesLoadable(db, row[0], row[1..], now);
      if GoodAddRow(row) {
        AddRowLoadable(db, row, now);
      }
    }
  }

  lemma AddRowLoadable(db: Store, row: Row, now: int)
    requires Loadable(db.users) && GoodAddRow(row)
    ensures |row| >= 4
    ensures Loadable(AddUser(db, UserOfRow(row, now), now).0.users)
    ensures Loadable(AddUser(WithoutUser(db, row[1]), UserOfRow(row, now), now).0.users)
  {
    hide GoodUser, GoodClaim, Loadable;
    var u := UserOfRow(row, now);
    assert LoadableUser(u);
    LoadableLess(db.users, u.uid);
    LoadablePut(db.users, u.uid, u);
    LoadablePut(db.users - {u.uid}, u.uid, u);
  }

  /** Requests change users only in checking the requester. */
  lemma CheckAccessLoadable(db: Store, cfg: Config, c: Caller, pool: string, first: bool, now: int)
    requires Loadable(db.users)
    ensures Loadable(CheckAccess(db, cfg, c, pool, first, now).0.users)
  {
    hide GoodUser, GoodClaim;
  }

  lemma CheckPoolAccessLoadable(db: Store, cfg: Config, c: Caller, pool: string, now: int)
    requires Loadable(db.users)
    ensures Loadable(CheckPoolAccess(db, cfg, c, pool, now).0.users)
  {
    hide CheckAccess;
    CheckAccessLoadable(db, cfg, c, pool, false, now);
  }

  lemma StepLoadable(db: Store, cfg: Config, op: Op, now: int)
    requires Loadable(db.users)
    ensures Loadable(Step(db, cfg, op, now).0.users)
  {
    hide Loadable, Step, TablesAfter;
    StepOnUsers(db, cfg, op, now);
    TablesLoadable(db, cfg, op, now);
  }

  lemma TablesLoadable(db: Store, cfg: Config, op: Op, now: int)
    requires Loadable(db.users)
    ensures Loadable(TablesAfter(db, cfg, op, now).users)
  {
    hide Loadable, CheckAccess, CheckPoolAccess, LoadRow;
    if !(op.LoadUserRow? || op.StopUser? || op.ExpireUser?) {
      RequesterLoadable(db, cfg, op, now);
      return;
    }
    match op
    case LoadUserRow(row) => LoadRowLoadable(db, row, now);
    case StopUser(uid, disabling) => LoadableSame(db.users, uid, !disabling, 0);
    case ExpireUser(uid, date) => LoadableSame(db.users, uid, false, date);
  }

  lemma RequesterLoadable(db: Store, cfg: Config, op: Op, now: int)
    requires Loadable(db.users) && !(op.LoadUserRow? || op.StopUser? || op.ExpireUser?)
    ensures Loadable(TablesAfter(db, cfg, op, now).users)
  {
    hide Loadable, CheckAccess, CheckPoolAccess;
    match op
    case UserInfo(c, _) => CheckAccessLoadable(db, cfg, c, "", true, now);
    case ListPool(c, _, pool) => CheckAccessLoadable(db, cfg, c, pool, false, now);
    case MakePool(c, _, _, _, _, _, _, _) => CheckAccessLoadable(db, cfg, c, "", false, now);
    case DeletePool(c, _, pool) => CheckPoolAccessLoadable(db, cfg, c, pool, now);
    case MakeBucket(c, _, pool, _, _, _) => CheckPoolAccessLoadable(db, cfg, c, pool, now);
    case DeleteBucket(c, _, pool, _) => CheckPoolAccessLoadable(db, cfg, c, pool, now);
    case MakeSecret(c, _, pool, _, _, _, _) => CheckPoolAccessLoadable(db, cfg, c, pool, now);
    case DeleteSecret(c, _, pool, _) => CheckPoolAccessLoadable(db, cfg, c, pool, now);
    case _ =>
  }

  lemma LoadableSame(users: map<string, User>, uid: string, enabled: bool, date: int)
    requires Loadable(users)
    ensures uid in users ==> Loadable(users[uid := users[uid].(enabled := enabled)])
    ensures uid in users ==> Loadable(users[uid := users[uid].(expiration := date)])
  {
    hide GoodUser, GoodClaim;
  }

  /** In every state of every run, users that are not ephemeral have valid names
      and claims and at least one group. */
  lemma {:induction false} RunLoadable(db: Store, cfg: Config, ops: Ops)
    requires Loadable(db.users)
    ensures Loadable(Run(db, cfg, ops).users)
    decreases |ops|
  {
    hide Loadable, Step;
    if ops != [] {
      StepLoadable(db, cfg, ops[0].0, ops[0].1);
      RunLoadable(Step(db, cfg, ops[0].0, ops[0].1).0, cfg, ops[1..]);
    }
  }

  // ---- loading the ADD rows ----

  predicate Dumped(users: map<string, User>, uid: string) {
    uid in users && !users[uid].ephemeral
  }

  /** Rows that add different users of the table. */
  ghost predicate GoodRows(users: map<string, User>, rows: seq<Row>) {
    && (forall i | 0 <= i < |rows| ::
          |rows[i]| > 1 && Dumped(users, rows[i][1]) && users[rows[i][1]].uid == rows[i][1] && rows[i] == AddRow(users[rows[i][1]]))
    && (forall i, j | 0 <= i < j < |rows| :: rows[i][1] != rows[j][1])
  }

  /** A user as an ADD row leaves it. */
  function Added(u: User, now: int): User {
    u.(enabled := true, expiration := now + LOAD_TERM, timestamp := now)
  }

  /** The users in `done` have been added to an empty registry, and no others. */
  ghost predicate Partial(users: map<string, User>, db: Store, done: set<string>, now: int) {
    && Integrity(db)
    && db.users.Keys == done
    && (forall u | u in done :: Dumped(users, u) && db.users[u] == Added(users[u], now))
    && (forall c | c in db.claims :: db.claims[c].uid in done && users[db.claims[c].uid].claim == c)
  }

  lemma AddOne(users: map<string, User>, db: Store, done: set<string>, row: Row, now: int)
    requires Partial(users, db, done, now) && Loadable(users)
    requires |row| > 1 && Dumped(users, row[1]) && users[row[1]].uid == row[1] && row == AddRow(users[row[1]]) && row[1] !in done
    requires ClaimsDiffer(users)
    ensures var (r, s) := LoadRow(db, row, now);
            s.Okay? && Partial(users, r, done + {row[1]}, now)
  {
    var uid := row[1];
    LoadRowIntegrity(db, row, now);
    WithoutUserUnknown(db, uid);
    assert row[3..] == users[uid].groups;
    assert GoodAddRow(row) by { assert LoadableUser(users[uid]); }
    hide Integrity, WithoutUser, GoodAddRow, Loadable, ClaimsDiffer;
    var u := UserOfRow(row, now);
    assert u == Added(users[uid], now);
    NoConflict(users, db, done, u, now);
    AddUserStep(users, db, done, u, now);
  }

  lemma AddUserStep(users: map<string, User>, db: Store, done: set<string>, u: User, now: int)
    requires Partial(users, db, done, now) && Dumped(users, u.uid) && u == Added(users[u.uid], now) && u.uid !in done
    requires !ClaimConflict(db, u) && u.uid != "" && u.groups != []
    requires Integrity(AddUser(db, u, now).0)
    ensures AddUser(db, u, now).1.Okay? && Partial(users, AddUser(db, u, now).0, done + {u.uid}, now)
  {
    hide Integrity;
  }

  lemma NoConflict(users: map<string, User>, db: Store, done: set<string>, u: User, now: int)
    requires Partial(users, db, done, now) && Dumped(users, u.uid) && users[u.uid].claim == u.claim && u.uid !in done
    requires ClaimsDiffer(users)
    ensures !ClaimConflict(db, u)
  {
  }

  function RowUids(rows: seq<Row>): set<string> {
    set row | row in rows && |row| > 1 :: row[1]
  }

  lemma RowUidsFirst(row: Row, rest: seq<Row>)
    requires |row| > 1
    ensures RowUids([row] + rest) == {row[1]} + RowUids(rest)
  {
    var rows := [row] + rest;
    assert rows[0] == row && rows[1..] == rest;
    assert forall x :: x in rows <==> x == row || x in rest;
  }

  lemma RowUidsLast(front: seq<Row>, row: Row)
    requires |row| > 1
    ensures RowUids(front + [row]) == RowUids(front) + {row[1]}
  {
    assert forall x :: x in front + [row] <==> x in front || x == row;
  }

  lemma FirstOfGoodRows(users: map<string, User>, rows: seq<Row>)
    requires GoodRows(users, rows) && rows != []
    ensures |rows[0]| > 1 && Dumped(users, rows[0][1]) && users[rows[0][1]].uid == rows[0][1]
    ensures rows[0] == AddRow(users[rows[0][1]])
    ensures GoodRows(users, rows[1..]) && rows[0][1] !in RowUids(rows[1..])
    ensures RowUids(rows) == {rows[0][1]} + RowUids(rows[1..])
  {
    assert rows == [rows[0]] + rows[1..];
    RowUidsFirst(rows[0], rows[1..]);
    assert forall i | 0 <= i < |rows[1..]| :: rows[1..][i] == rows[i + 1];
  }

  /** No two users have the same claim. */
  ghost predicate ClaimsDiffer(users: map<string, User>) {
    forall u, v | u in users && v in users && u != v && users[u].claim != "" :: users[u].claim != users[v].claim
  }

  lemma {:induction false} AddPhase(users: map<string, User>, db: Store, done: set<string>, rows: seq<Row>, now: int)
    requires Partial(users, db, done, now) && Loadable(users) && GoodRows(users, rows)
    requires RowUids(rows) !! done && ClaimsDiffer(users)
    ensures var (r, s) := LoadAll(db, rows, now);
            s.Okay? && Partial(users, r, done + RowUids(rows), now)
    decreases |rows|
  {
    hide Partial, Loadable, LoadRow, GoodRows, ClaimsDiffer;
    if rows == [] {
      assert done + RowUids(rows) == done;
    } else {
      FirstOfGoodRows(users, rows);
      var uid, rest := rows[0][1], rows[1..];
      AddOne(users, db, done, rows[0], now);
      AddPhase(users, LoadRow(db, rows[0], now).0, done + {uid}, rest, now);
      assert done + {uid} + RowUids(rest) == done + RowUids(rows);
    }
  }

  // ---- loading the DISABLE row ----

  /** Of the users in `all`, those in `off` are disabled. */
  ghost predicate Switched(users: map<string, User>, db: Store, all: set<string>, off: set<string>, now: int) {
    && Integrity(db)
    && db.users.Keys == all
    && (forall u | u in all :: Dumped(users, u) && db.users[u] == Added(users[u], now).(enabled := u !in off))
  }

  function Names(names: seq<string>): set<string> { set n | n in names }

  lemma NamesStep(db: Store, names: seq<string>, now: int)
    requires names == [] || names[0] in db.users
    ensures names == [] ==> LoadNames(db, "DISABLE", names, now) == (db, Okay)
    ensures names != [] ==>
              var (db1, added) := AddUser(db, db.users[names[0]].(enabled := false), now);
              LoadNames(db, "DISABLE", names, now) ==
              if !added.Okay? then (db1, added) else LoadNames(db1, "DISABLE", names[1..], now)
  {
    hide AddUser;
    assert "DISABLE"[0] != "ENABLE"[0] && "DISABLE"[1] != "DELETE"[1];
  }

  lemma NoNames()
    ensures Names([]) == {}
  {
  }

  lemma NamesFirst(names: seq<string>)
    requires names != []
    ensures Names(names) == {names[0]} + Names(names[1..])
  {
    assert names == [names[0]] + names[1..];
  }

  lemma DisableOne(users: map<string, User>, db: Store, all: set<string>, off: set<string>, name: string, now: int)
    requires Switched(users, db, all, off, now) && Loadable(users) && name in all
    ensures var (r, s) := AddUser(db, db.users[name].(enabled := false), now);
            s.Okay? && Switched(users, r, all, off + {name}, now)
  {
    var u := db.users[name].(enabled := false);
    AddUserIntegrity(db, u, now);
    hide PoolsWell, DirectoriesMatch, NamesMatch, StatesWell, BucketsWell, SecretsWell, GoodClaim;
    assert u.uid == name && !ClaimConflict(db, u);
    hide Integrity;
    assert u.uid != "" && u.groups != [] by { assert LoadableUser(users[name]); }
    hide Switched, Loadable, ClaimConflict, AddUser;
    SwitchStep(users, db, all, off, u, now);
  }

  lemma SwitchStep(users: map<string, User>, db: Store, all: set<string>, off: set<string>, u: User, now: int)
    requires Switched(users, db, all, off, now) && u.uid in all && u == db.users[u.uid].(enabled := false)
    requires !ClaimConflict(db, u) && u.uid != "" && u.groups != []
    requires Integrity(AddUser(db, u, now).0)
    ensures AddUser(db, u, now).1.Okay? && Switched(users, AddUser(db, u, now).0, all, off + {u.uid}, now)
  {
    hide Integrity, ClaimConflict;
  }

  lemma SwitchedKeys(users: map<string, User>, db: Store, all: set<string>, off: set<string>, now: int)
    requires Switched(users, db, all, off, now)
    ensures db.users.Keys == all
  {
    hide Integrity;
  }

  lemma {:induction false} DisablePhase(users: map<string, User>, db: Store, all: set<string>, off: set<string>,
                                        names: seq<string>, now: int)
    requires Switched(users, db, all, off, now) && Loadable(users)
    requires Names(names) <= all
    ensures var (r, s) := LoadNames(db, "DISABLE", names, now);
            s.Okay? && Switched(users, r, all, off + Names(names), now)
    decreases |names|
  {
    hide Switched, Loadable, AddUser, Names, LoadNames;
    SwitchedKeys(users, db, all, off, now);
    if names != [] { NamesFirst(names); }
    NamesStep(db, names, now);
    if names == [] {
      assert Names([]) == {} by { NoNames(); }
      assert off + Names(names) == off;
    } else {
      var name, rest := names[0], names[1..];
      DisableOne(users, db, all, off, name, now);
      var u := db.users[name].(enabled := false);
      DisablePhase(users, AddUser(db, u, now).0, all, off + {name}, rest, now);
      assert off + {name} + Names(rest) == off + Names(names);
    }
  }

  // ---- what the rows of a dump are ----

  lemma {:induction false} AddRowsAre(users: map<string, User>, list: seq<User>)
    requires forall i, j | 0 <= i < j < |list| :: list[i].uid != list[j].uid
    requires forall i | 0 <= i < |list| :: list[i].uid in users && users[list[i].uid] == list[i]
    ensures GoodRows(users, AddRows(list))
    ensures RowUids(AddRows(list)) == set u | u in list && !u.ephemeral :: u.uid
  {
    if list != [] {
      var front, u := list[..|list| - 1], list[|list| - 1];
      AddRowsAre(users, front);
      hide GoodRows, RowUids;
      assert list == front + [u];
      assert forall v | v in front :: v.uid != u.uid;
      if !u.ephemeral {
        assert u.uid !in RowUids(AddRows(front));
        GoodRowsLast(users, AddRows(front), u);
      }
    }
  }

  lemma GoodRowsLast(users: map<string, User>, rows: seq<Row>, u: User)
    requires GoodRows(users, rows) && Dumped(users, u.uid) && users[u.uid] == u && u.uid !in RowUids(rows)
    ensures GoodRows(users, rows + [AddRow(u)]) && RowUids(rows + [AddRow(u)]) == RowUids(rows) + {u.uid}
  {
    RowUidsLast(rows, AddRow(u));
    assert forall i | 0 <= i < |rows| :: rows[i] in rows && rows[i][1] in RowUids(rows);
  }

  lemma {:induction false} DisablesAre(list: seq<User>)
    ensures forall n :: n in Disables(list) <==> n in set u | u in list && !u.ephemeral && !u.enabled :: u.uid
  {
    if list != [] {
      DisablesAre(list[..|list| - 1]);
      assert list == list[..|list| - 1] + [list[|list| - 1]];
    }
  }

  /** Rows for different users stay so in any order. */
  lemma GoodRowsPermuted(users: map<string, User>, rows: seq<Row>, other: seq<Row>)
    requires GoodRows(users, rows) && multiset(rows) == multiset(other)
    ensures GoodRows(users, other) && RowUids(other) == RowUids(rows)
  {
    assert NoDuplicates(rows);
    Permuted(rows, other);
    forall i | 0 <= i < |other|
      ensures |other[i]| > 1 && Dumped(users, other[i][1]) && users[other[i][1]].uid == other[i][1]
              && other[i] == AddRow(users[other[i][1]])
    {
      assert other[i] in rows;
    }
  }

  lemma OrderingOf(row: Row)
    requires row != []
    ensures row[0] == "ADD" ==> Ordering(row) == 1
    ensures row[0] == "DISABLE" ==> Ordering(row) == 4
  {
    assert "DISABLE"[0] != "ADD"[0] && "DISABLE"[0] != "MODIFY"[0] && "DISABLE"[0] != "ENABLE"[0] && "DISABLE"[1] != "DELETE"[1];
  }

  /** A sort leaves the ADD rows of a dump in some order, and its DISABLE row last. */
  lemma SortedDump(adds: seq<Row>, last: Row, sorted: seq<Row>)
    requires forall i | 0 <= i < |adds| :: Ordering(adds[i]) == 1
    requires Ordering(last) == 4 && Sorting(adds + [last], sorted)
    ensures |sorted| == |adds| + 1 && sorted[|adds|] == last
    ensures multiset(sorted[..|adds|]) == multiset(adds)
  {
    hide Ordering;
    var n := |adds|;
    assert |sorted| == |multiset(sorted)| == |multiset(adds + [last])| == n + 1;
    var end := sorted[n];
    assert sorted == sorted[..n] + [end];
    assert last in multiset(adds + [last]) && end in multiset(sorted);
    assert end in adds + [last] && last in sorted;
    var i :| 0 <= i < |sorted| && sorted[i] == last;
    assert i < n ==> Ordering(last) <= Ordering(end);
    assert end == last;
    Cancel(sorted[..n], adds, last);
  }

  lemma Cancel(s: seq<Row>, t: seq<Row>, last: Row)
    requires multiset(s + [last]) == multiset(t + [last])
    ensures multiset(s) == multiset(t)
  {
    assert multiset(s) == multiset(s + [last]) - multiset{last};
    assert multiset(t) == multiset(t + [last]) - multiset{last};
  }

  // ---- the round trip ----

  /** What a dump keeps of a user. */
  predicate SameUser(u: User, v: User) {
    u.uid == v.uid && u.claim == v.claim && u.groups == v.groups && u.enabled == v.enabled && u.ephemeral == v.ephemeral
  }

  /** The registry holds the dumped users and no others, each as it was. */
  ghost predicate Restored(users: map<string, User>, db: Store) {
    && (forall u :: u in db.users <==> Dumped(users, u))
    && (forall u | u in db.users :: SameUser(db.users[u], users[u]))
    && (forall u | u in db.users && users[u].claim != "" ::
          users[u].claim in db.claims && db.claims[users[u].claim].uid == u)
  }

  lemma EmptyIsPartial(users: map<string, User>, now: int)
    ensures Partial(users, EmptyStore, {}, now)
  {
  }

  lemma {:induction false} LoadAllAppend(db: Store, rows: seq<Row>, row: Row, now: int)
    requires LoadAll(db, rows, now).1.Okay?
    ensures LoadAll(db, rows + [row], now) == LoadRow(LoadAll(db, rows, now).0, row, now)
    decreases |rows|
  {
    hide LoadRow;
    if rows == [] {
      assert rows + [row] == [row];
      var (db1, s) := LoadRow(db, row, now);
      assert LoadAll(db1, [], now) == (db1, Okay);
    } else {
      assert (rows + [row])[1..] == rows[1..] + [row];
      LoadAllAppend(LoadRow(db, rows[0], now).0, rows[1..], row, now);
    }
  }

  lemma ListedRows(users: map<string, User>, list: seq<User>)
    requires Lists(list, users)
    ensures GoodRows(users, AddRows(list))
    ensures RowUids(AddRows(list)) == set u | u in list && !u.ephemeral :: u.uid
  {
    AddRowsAre(users, list);
  }

  lemma ClaimsAreExclusive(db: Store)
    requires UsersWell(db.users, db.claims, db.userTimes)
    ensures ClaimsDiffer(db.users)
  {
    forall u, v | u in db.users && v in db.users && db.users[u].claim != "" && db.users[u].claim == db.users[v].claim
      ensures u == v
    {
      assert db.claims[db.users[u].claim].uid == u;
      assert db.claims[db.users[v].claim].uid == v;
    }
  }

  /** The ADD rows, in any order, add the dumped users. */
  lemma LoadAdds(db: Store, list: seq<User>, adds: seq<Row>, now: int)
    requires UsersWell(db.users, db.claims, db.userTimes) && Loadable(db.users) && Lists(list, db.users)
    requires multiset(AddRows(list)) == multiset(adds)
    ensures LoadAll(EmptyStore, adds, now).1.Okay?
    ensures Partial(db.users, LoadAll(EmptyStore, adds, now).0, set u | u in list && !u.ephemeral :: u.uid, now)
  {
    ListedRows(db.users, list);
    hide UsersWell, ClaimsDiffer, Loadable, Partial, GoodRows, RowUids, AddRows, Lists;
    ClaimsAreExclusive(db);
    GoodRowsPermuted(db.users, AddRows(list), adds);
    EmptyIsPartial(db.users, now);
    AddPhase(db.users, EmptyStore, {}, adds, now);
    assert {} + RowUids(adds) == RowUids(adds);
  }

  lemma PartialIsSwitched(users: map<string, User>, db: Store, all: set<string>, now: int)
    requires Partial(users, db, all, now)
    ensures Switched(users, db, all, {}, now)
  {
    hide Integrity;
  }

  /** The DISABLE row of a dump is accepted and disables the users in it. */
  lemma LoadDisable(users: map<string, User>, db: Store, all: set<string>, names: seq<string>, now: int)
    requires Switched(users, db, all, {}, now) && Loadable(users)
    requires Names(names) <= all
    ensures var (r, s) := LoadRow(db, ["DISABLE"] + names, now);
            s.Okay? && Switched(users, r, all, Names(names), now)
  {
    var row := ["DISABLE"] + names;
    assert row[0] == "DISABLE" && row[1..] == names;
    assert !exists n | n in names :: !GoodUser(n) by {
      forall n | n in names ensures GoodUser(n) {
        assert n in Names(names) && db.users[n].uid == n;
        assert LoadableUser(users[n]);
      }
    }
    hide GoodUser, GoodClaim, Switched, Loadable;
    DisablePhase(users, db, all, {}, names, now);
    assert {} + Names(names) == Names(names);
  }

  lemma SwitchedIsRestored(db: Store, list: seq<User>, r: Store, now: int)
    requires UsersWell(db.users, db.claims, db.userTimes) && Lists(list, db.users)
    requires Switched(db.users, r, set u | u in list && !u.ephemeral :: u.uid,
                      set u | u in list && !u.ephemeral && !u.enabled :: u.uid, now)
    ensures Restored(db.users, r) && Integrity(r)
  {
    var users := db.users;
    forall u ensures u in r.users <==> Dumped(users, u) {
      if Dumped(users, u) { assert users[u] in list && users[u].uid == u; }
    }
    forall u | u in r.users ensures SameUser(r.users[u], users[u]) {
      assert users[u] in list && users[u].uid == u;
    }
  }

  /** Dumping the users of a registry and loading the rows, in whatever order the
      sort leaves them, into an empty one restores the uid, claim, groups and
      enabled flag of every user that is not ephemeral. */
  lemma DumpThenLoad(db: Store, list: seq<User>, sorted: seq<Row>, now: int)
    requires UsersWell(db.users, db.claims, db.userTimes) && Loadable(db.users) && Lists(list, db.users)
    requires Sorting(DumpRows(list), sorted)
    ensures var (r, s) := LoadAll(EmptyStore, sorted, now);
            s.Okay? && Restored(db.users, r) && Integrity(r)
  {
    var users, off := db.users, Disables(list);
    var all := set u | u in list && !u.ephemeral :: u.uid;
    var adds := SplitDump(list, sorted);
    DisablesDumped(users, list);
    hide UsersWell, Integrity, Loadable, Lists, Partial, Switched, Restored, LoadRow, LoadAll, Sorting, Names, Disables;
    LoadAdds(db, list, adds, now);
    var r := LoadAll(EmptyStore, adds, now).0;
    PartialIsSwitched(users, r, all, now);
    if off == [] {
      NoNames();
    } else {
      LoadDisable(users, r, all, off, now);
      LoadAllAppend(EmptyStore, adds, ["DISABLE"] + off, now);
      r := LoadRow(r, ["DISABLE"] + off, now).0;
    }
    SwitchedIsRestored(db, list, r, now);
  }

  /** The ADD rows as the sort leaves them. */
  lemma SplitDump(list: seq<User>, sorted: seq<Row>) returns (adds: seq<Row>)
    requires Sorting(DumpRows(list), sorted)
    ensures multiset(AddRows(list)) == multiset(adds)
    ensures sorted == if Disables(list) == [] then adds else adds + [["DISABLE"] + Disables(list)]
  {
    hide Sorting, Ordering;
    adds := sorted;
    if Disables(list) == [] {
      assert DumpRows(list) == AddRows(list);
      SortingPermutes(AddRows(list), sorted);
    } else {
      var last := ["DISABLE"] + Disables(list);
      OrderingOf(last);
      AddsComeFirst(list);
      SortedDump(AddRows(list), last, sorted);
      adds := sorted[..|sorted| - 1];
      assert sorted == adds + [sorted[|sorted| - 1]];
    }
  }

  lemma SortingPermutes(rows: seq<Row>, sorted: seq<Row>)
    requires Sorting(rows, sorted)
    ensures multiset(sorted) == multiset(rows)
  {
  }

  lemma {:induction false} AddsComeFirst(list: seq<User>)
    ensures forall i | 0 <= i < |AddRows(list)| :: Ordering(AddRows(list)[i]) == 1
  {
    hide Ordering;
    if list != [] {
      AddsComeFirst(list[..|list| - 1]);
      OrderingOf(AddRow(list[|list| - 1]));
    }
  }

  lemma DisablesDumped(users: map<string, User>, list: seq<User>)
    requires Lists(list, users)
    ensures Names(Disables(list)) == set u | u in list && !u.ephemeral && !u.enabled :: u.uid
    ensures Names(Disables(list)) <= set u | u in list && !u.ephemeral :: u.uid
  {
    DisablesAre(list);
  }

  /** Hence from every state that any operations can reach, panics included. */
  lemma ReachableDumpThenLoad(cfg: Config, ops: Ops, list: seq<User>, sorted: seq<Row>, now: int)
    requires Lists(list, Run(EmptyStore, cfg, ops).users) && Sorting(DumpRows(list), sorted)
    ensures var (r, s) := LoadAll(EmptyStore, sorted, now);
            s.Okay? && Restored(Run(EmptyStore, cfg, ops).users, r) && Integrity(r)
  {
    assert Sound(EmptyStore) && Loadable(EmptyStore.users);
    RunKeepsSound(EmptyStore, cfg, ops);
    RunLoadable(EmptyStore, cfg, ops);
    hide UsersWell, Integrity, Loadable, Run, LoadAll, Restored, Sorting;
    DumpThenLoad(Run(EmptyStore, cfg, ops), list, sorted, now);
  }
}
