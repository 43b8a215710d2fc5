/**
 * The leaderboard API of app.py: the `members`, `weekly_leaderboard`,
 * `monthly_leaderboard` and `admin_users` tables as maps, the session of
 * the logged-in admin, and one method per route handler.
 *
 * The SQL statements are modelled by what they do to the maps: the
 * leaderboard query (LEFT JOIN, COALESCE, ORDER BY ... DESC) and the
 * member list (ORDER BY name) by methods that build their result rows,
 * the upserts (`ON CONFLICT ... DO UPDATE`) by a map update, and the
 * deletes by removing keys.
 */
module Leaderboard {
  import opened JsonValues
  import Periods

  // ---------- Rows of the tables ----------

  /** A row of `members`; `avatar` is a nullable TEXT column. */
  datatype Member = Member(name: string, avatar: Option<string>)

  /** A row of `weekly_leaderboard` or `monthly_leaderboard`; NULL columns are None. */
  datatype StoredStats = StoredStats(sessions: Option<int>, assessments: Option<int>, bonus: Option<int>)

  /** A row of `admin_users`, keyed by its unique username. */
  datatype Admin = Admin(id: int, passwordHash: string, role: string)

  /** The `user_id`, `username` and `role` keys `login` writes into the session. */
  datatype SessionUser = SessionUser(userId: int, username: string, role: string)

  /** The `user` object the auth routes answer with. */
  datatype UserInfo = UserInfo(username: string, role: string)

  /** A stats table keyed by (member_id, period), as `UNIQUE(member_id, period)` makes it. */
  type Table<K(==)> = map<(int, K), StoredStats>

  // ---------- Requests and responses ----------

  /** The JSON body of `POST /api/admin/members`. */
  datatype MemberRequest = MemberRequest(name: Field<string>, avatar: Field<string>)

  /** The JSON body of the two `.../update` routes. */
  datatype StatsRequest = StatsRequest(memberId: Field<int>, sessions: Field<int>, assessments: Field<int>, bonus: Field<int>)

  /** One row of `SELECT id, name, avatar FROM members`. */
  datatype MemberRow = MemberRow(id: int, name: string, avatar: Option<string>)

  /** One row of the leaderboard query, after COALESCE. */
  datatype Row = Row(id: int, name: string, avatar: Option<string>, sessions: int, assessments: int, bonus: int)

  /** One element of the `data` list a leaderboard route returns. */
  datatype Entry = Entry(id: int, name: string, avatar: Option<string>,
                         sessionsAttended: int, assessmentsSubmitted: int, bonusPoints: int,
                         totalPoints: int)

  datatype Payload =
    | LoggedIn(account: UserInfo)
    | Message(text: string)
    | AuthState(authenticated: bool, user: Option<UserInfo>)
    | WeeklyBoard(weekStart: Periods.DayNumber, data: seq<Entry>)
    | MonthlyBoard(monthYear: string, data: seq<Entry>)
    | MemberList(rows: seq<MemberRow>)
    | MemberAdded(id: int, name: string, avatar: Option<string>)

  /** `jsonify(...)` with `'success': True` (status 200), or with `'success': False` and an error. */
  datatype Response =
    | Success(payload: Payload)
    | Failure(status: int, error: string, code: Option<string>)

  /** The JSON `jsonify` writes for a response: `success`, `error` on failure, the payload on success. */
  function ToEnvelope(r: Response): (e: Envelope<Option<Payload>>)
    ensures e.success == Value(true) <==> r.Success?
    ensures r.Success? ==> e.error == Absent && e.body == Some(r.payload)
    ensures r.Failure? ==> e.success == Value(false) && e.error == Value(r.error) && e.body == None
  {
    match r
    case Success(payload) => Envelope(Value(true), Absent, Some(payload))
    case Failure(_, error, _) => Envelope(Value(false), Value(error), None)
  }

  /** What `require_auth` answers when the session holds no `user_id`. */
  const AuthRequired: Response := Failure(401, "Authentication required", Some("AUTH_REQUIRED"))

  // ---------- Points ----------

  /** `calculate_points` */
  function CalculatePoints(sessions: int, assessments: int, bonus: int): int {
    (sessions * 10) + (assessments * 20) + bonus
  }

  /** One more session adds 10 points, one more assessment 20 and one more bonus point 1. */
  lemma PointWeights(sessions: int, assessments: int, bonus: int)
    ensures CalculatePoints(sessions + 1, assessments, bonus) == CalculatePoints(sessions, assessments, bonus) + 10
    ensures CalculatePoints(sessions, assessments + 1, bonus) == CalculatePoints(sessions, assessments, bonus) + 20
    ensures CalculatePoints(sessions, assessments, bonus + 1) == CalculatePoints(sessions, assessments, bonus) + 1
  {
  }

  /** `COALESCE(column, 0)` */
  function Coalesce(v: Option<int>): (r: int)
    ensures v.None? ==> r == 0
  {
    match v
    case Some(x) => x
    case None => 0
  }

  /** The expression the leaderboard query orders by, as the SQL writes it. */
  function OrderKey(row: Row): int {
    row.sessions * 10 + row.assessments * 20 + row.bonus
  }

  /** The body of the route's `for row in rows` loop: the row as a dict plus `totalPoints`. */
  function ToEntry(row: Row): (e: Entry)
    ensures e.id == row.id && e.name == row.name && e.avatar == row.avatar
    ensures e.sessionsAttended == row.sessions && e.assessmentsSubmitted == row.assessments
    ensures e.bonusPoints == row.bonus
    ensures e.totalPoints == OrderKey(row)
  {
    Entry(row.id, row.name, row.avatar, row.sessions, row.assessments, row.bonus,
          CalculatePoints(row.sessions, row.assessments, row.bonus))
  }

  // ---------- The leaderboard query ----------

  /**
   * The row `FROM members m LEFT JOIN table t ON m.id = t.member_id AND t.period = ?`
   * gives member `id`: its stats for the period, each NULL (or missing row) read as 0.
   */
  function JoinedRow<K(==)>(members: map<int, Member>, table: Table<K>, period: K, id: int): (row: Row)
    requires id in members
    ensures (id, period) !in table ==> row.sessions == 0 && row.assessments == 0 && row.bonus == 0
  {
    var stats := if (id, period) in table then table[(id, period)] else StoredStats(None, None, None);
    Row(id, members[id].name, members[id].avatar,
        Coalesce(stats.sessions), Coalesce(stats.assessments), Coalesce(stats.bonus))
  }

  /** A non-empty set has an element to pick. */
  lemma HasElement(s: set<int>)
    requires s != {}
    ensures exists x :: x in s
  {
    if forall x :: x !in s {
      assert false;
    }
  }

  /** The ids a list of rows carries, each read through `id`. */
  function Ids<T>(s: seq<T>, id: T -> int): set<int> {
    set i | 0 <= i < |s| :: id(s[i])
  }

  function RowId(row: Row): int { row.id }

  function EntryId(e: Entry): int { e.id }

  function MemberRowId(row: MemberRow): int { row.id }

  /** Inserting at position `k` keeps the elements before it, shifts the rest by one and adds one id. */
  lemma InsertedAt<T>(s: seq<T>, k: int, x: T, id: T -> int)
    requires 0 <= k <= |s|
    ensures var t := s[..k] + [x] + s[k..];
      && |t| == |s| + 1 && t[k] == x
      && (forall i :: 0 <= i < k ==> t[i] == s[i])
      && (forall i :: k < i < |t| ==> t[i] == s[i - 1])
      && Ids(t, id) == Ids(s, id) + {id(x)}
  {
    var t := s[..k] + [x] + s[k..];
    forall n | n in Ids(t, id) ensures n in Ids(s, id) + {id(x)} {
      var i :| 0 <= i < |t| && id(t[i]) == n;
      if i > k { assert id(s[i - 1]) == n; }
    }
    forall n | n in Ids(s, id) + {id(x)} ensures n in Ids(t, id) {
      if n != id(x) {
        var i :| 0 <= i < |s| && id(s[i]) == n;
        if i < k { assert id(t[i]) == n; } else { assert id(t[i + 1]) == n; }
      } else {
        assert id(t[k]) == n;
      }
    }
  }

  /** Rows as the query returns them: one per member, each the member's joined row, by descending points. */
  ghost predicate IsBoardRows<K>(members: map<int, Member>, table: Table<K>, period: K, rows: seq<Row>) {
    && Ids(rows, RowId) == members.Keys
    && (forall i, j :: 0 <= i < j < |rows| ==> rows[i].id != rows[j].id)
    && (forall i :: 0 <= i < |rows| ==> rows[i].id in members && rows[i] == JoinedRow(members, table, period, rows[i].id))
    && (forall i, j :: 0 <= i < j < |rows| ==> OrderKey(rows[i]) >= OrderKey(rows[j]))
  }

  /**
   * A leaderboard: one entry per member and no other, each carrying that
   * member's stats for the period (0 where it has none) and their points,
   * listed by non-increasing points. Ties may come in any order.
   */
  ghost predicate IsBoard<K>(members: map<int, Member>, table: Table<K>, period: K, data: seq<Entry>) {
    && Ids(data, EntryId) == members.Keys
    && (forall i, j :: 0 <= i < j < |data| ==> data[i].id != data[j].id)
    && (forall i :: 0 <= i < |data| ==> data[i].id in members && data[i] == ToEntry(JoinedRow(members, table, period, data[i].id)))
    && (forall i, j :: 0 <= i < j < |data| ==> data[i].totalPoints >= data[j].totalPoints)
  }

  /**
   * Where the engine places a row among rows already ordered by
   * non-increasing points: after every row with more points, before the rest.
   */
  method BoardInsertionPoint(rows: seq<Row>, row: Row) returns (k: int)
    requires forall i, j :: 0 <= i < j < |rows| ==> OrderKey(rows[i]) >= OrderKey(rows[j])
    ensures 0 <= k <= |rows|
    ensures forall j :: 0 <= j < k ==> OrderKey(rows[j]) > OrderKey(row)
    ensures forall j :: k <= j < |rows| ==> OrderKey(rows[j]) <= OrderKey(row)
  {
    k := 0;
    while k < |rows| && OrderKey(rows[k]) > OrderKey(row)
      invariant 0 <= k <= |rows|
      invariant forall j :: 0 <= j < k ==> OrderKey(rows[j]) > OrderKey(row)
    {
      k := k + 1;
    }
  }

  /**
   * The leaderboard SELECT. The database engine is modelled as building the
   * ordered result one member at a time, placing each joined row after all
   * rows with more points.
   */
  method SelectBoardRows<K(==)>(members: map<int, Member>, table: Table<K>, period: K) returns (rows: seq<Row>)
    ensures IsBoardRows(members, table, period, rows)
  {
    rows := [];
    var rest := members.Keys;
    while rest != {}
      invariant rest <= members.Keys
      invariant Ids(rows, RowId) == members.Keys - rest
      invariant forall i, j :: 0 <= i < j < |rows| ==> rows[i].id != rows[j].id
      invariant forall i :: 0 <= i < |rows| ==> rows[i].id in members && rows[i] == JoinedRow(members, table, period, rows[i].id)
      invariant forall i, j :: 0 <= i < j < |rows| ==> OrderKey(rows[i]) >= OrderKey(rows[j])
      decreases rest
    {
      HasElement(rest);
      var id :| id in rest;
      var row := JoinedRow(members, table, period, id);
      var k := BoardInsertionPoint(rows, row);
      assert id !in Ids(rows, RowId);
      InsertedAt(rows, k, row, RowId);
      rows := rows[..k] + [row] + rows[k..];
      rest := rest - {id};
    }
  }

  /** The route's loop over the query rows: `data.append(member)` with `totalPoints` added. */
  method AttachPoints(rows: seq<Row>) returns (data: seq<Entry>)
    ensures |data| == |rows|
    ensures forall i :: 0 <= i < |rows| ==> data[i] == ToEntry(rows[i])
  {
    data := [];
    for i := 0 to |rows|
      invariant |data| == i
      invariant forall j :: 0 <= j < i ==> data[j] == ToEntry(rows[j])
    {
      data := data + [ToEntry(rows[i])];
    }
  }

  /** Entries made row by row carry the same ids as the rows. */
  lemma SameIds(rows: seq<Row>, data: seq<Entry>)
    requires |data| == |rows| && forall i :: 0 <= i < |rows| ==> data[i].id == rows[i].id
    ensures Ids(data, EntryId) == Ids(rows, RowId)
  {
    forall n | n in Ids(rows, RowId) ensures n in Ids(data, EntryId) {
      var i :| 0 <= i < |rows| && RowId(rows[i]) == n;
      assert EntryId(data[i]) == n;
    }
    forall n | n in Ids(data, EntryId) ensures n in Ids(rows, RowId) {
      var i :| 0 <= i < |data| && EntryId(data[i]) == n;
      assert RowId(rows[i]) == n;
    }
  }

  /** The query rows turned into entries form a leaderboard. */
  lemma {:induction false} EntriesOfBoardRows<K>(members: map<int, Member>, table: Table<K>, period: K, rows: seq<Row>, data: seq<Entry>)
    requires IsBoardRows(members, table, period, rows)
    requires |data| == |rows| && forall i :: 0 <= i < |rows| ==> data[i] == ToEntry(rows[i])
    ensures IsBoard(members, table, period, data)
  {
    SameIds(rows, data);
  }

  /** `get_weekly_leaderboard` / `get_monthly_leaderboard` after the period is chosen. */
  method QueryBoard<K(==)>(members: map<int, Member>, table: Table<K>, period: K) returns (data: seq<Entry>)
    ensures IsBoard(members, table, period, data)
  {
    var rows := SelectBoardRows(members, table, period);
    data := AttachPoints(rows);
    EntriesOfBoardRows(members, table, period, rows, data);
  }

  // ---------- Properties of the leaderboard ----------

  /** The board is empty exactly when there are no members (the LEFT JOIN drops nobody). */
  lemma BoardEmptyIff<K>(members: map<int, Member>, table: Table<K>, period: K, data: seq<Entry>)
    requires IsBoard(members, table, period, data)
    ensures data == [] <==> members == map[]
  {
    if data == [] {
      assert members.Keys == {};
    } else {
      assert data[0].id in members.Keys;
    }
  }

  /** Distinct ids make the id set exactly as large as the list. */
  lemma {:induction false} DistinctIdsCount(data: seq<Entry>)
    requires forall i, j :: 0 <= i < j < |data| ==> data[i].id != data[j].id
    ensures |Ids(data, EntryId)| == |data|
  {
    if data != [] {
      var init, last := data[..|data| - 1], data[|data| - 1];
      DistinctIdsCount(init);
      assert Ids(data, EntryId) == Ids(init, EntryId) + {last.id} by {
        forall id | id in Ids(data, EntryId) ensures id in Ids(init, EntryId) + {last.id} {
          var i :| 0 <= i < |data| && EntryId(data[i]) == id;
          if i < |init| { assert init[i].id == id; }
        }
        forall id | id in Ids(init, EntryId) ensures id in Ids(data, EntryId) {
          var i :| 0 <= i < |init| && EntryId(init[i]) == id;
          assert data[i].id == id;
        }
      }
      assert last.id !in Ids(init, EntryId);
    }
  }

  /** The board lists every member exactly once. */
  lemma BoardSize<K>(members: map<int, Member>, table: Table<K>, period: K, data: seq<Entry>)
    requires IsBoard(members, table, period, data)
    ensures |data| == |members|
  {
    DistinctIdsCount(data);
    assert |members.Keys| == |members|;
  }

  /** Every member is on the board, with that member's stats for the period. */
  lemma MemberOnBoard<K>(members: map<int, Member>, table: Table<K>, period: K, data: seq<Entry>, id: int)
    requires IsBoard(members, table, period, data)
    requires id in members
    ensures exists i :: 0 <= i < |data| && data[i] == ToEntry(JoinedRow(members, table, period, id))
  {
    assert id in Ids(data, EntryId);
    var i :| 0 <= i < |data| && EntryId(data[i]) == id;
  }

  /** The first entry has the most points of all members. */
  lemma BoardLeader<K>(members: map<int, Member>, table: Table<K>, period: K, data: seq<Entry>, id: int)
    requires IsBoard(members, table, period, data)
    requires id in members
    ensures data != [] && data[0].totalPoints >= ToEntry(JoinedRow(members, table, period, id)).totalPoints
  {
    MemberOnBoard(members, table, period, data, id);
    var i :| 0 <= i < |data| && data[i] == ToEntry(JoinedRow(members, table, period, id));
    if i > 0 {
      assert data[0].totalPoints >= data[i].totalPoints;
    }
  }

  /**
   * After an upsert of member `id`'s row for the period, the board shows
   * exactly the stored stats (NULL as 0) for `id`, and every other member's
   * entry is the one it had before.
   */
  lemma BoardAfterUpsert<K>(members: map<int, Member>, table: Table<K>, period: K, id: int, stats: StoredStats, data: seq<Entry>)
    requires id in members
    requires IsBoard(members, table[(id, period) := stats], period, data)
    ensures forall i :: 0 <= i < |data| && data[i].id == id ==>
      && data[i].sessionsAttended == Coalesce(stats.sessions)
      && data[i].assessmentsSubmitted == Coalesce(stats.assessments)
      && data[i].bonusPoints == Coalesce(stats.bonus)
    ensures forall i :: 0 <= i < |data| && data[i].id != id ==>
      data[i] == ToEntry(JoinedRow(members, table, period, data[i].id))
  {
  }

  /** Rows of other periods never reach the board: updating one week leaves other weeks' boards alone. */
  lemma OtherPeriodsIgnored<K>(members: map<int, Member>, table: Table<K>, period: K, other: K, id: int, stats: StoredStats, data: seq<Entry>)
    requires other != period
    ensures IsBoard(members, table[(id, other) := stats], period, data) <==> IsBoard(members, table, period, data)
  {
    forall j | j in members
      ensures JoinedRow(members, table[(id, other) := stats], period, j) == JoinedRow(members, table, period, j)
    {
      assert (j, period) != (id, other);
    }
  }

  // ---------- The member list ----------

  /** SQLite's BINARY collation on text: compare code points, a proper prefix first. */
  predicate LexLess(a: string, b: string) {
    if |b| == 0 then false
    else if |a| == 0 then true
    else if a[0] != b[0] then a[0] < b[0]
    else LexLess(a[1..], b[1..])
  }

  lemma {:induction false} LexLessIrreflexive(a: string)
    ensures !LexLess(a, a)
  {
    if |a| > 0 { LexLessIrreflexive(a[1..]); }
  }

  lemma {:induction false} LexLessTransitive(a: string, b: string, c: string)
    requires LexLess(a, b) && LexLess(b, c)
    ensures LexLess(a, c)
  {
    if |a| > 0 && a[0] == b[0] && b[0] == c[0] {
      LexLessTransitive(a[1..], b[1..], c[1..]);
    }
  }

  lemma {:induction false} LexLessTotal(a: string, b: string)
    requires a != b
    ensures LexLess(a, b) || LexLess(b, a)
  {
    if |a| > 0 && |b| > 0 && a[0] == b[0] {
      LexLessTotal(a[1..], b[1..]);
    }
  }

  /** `name TEXT NOT NULL UNIQUE`: no two members share a name. */
  ghost predicate UniqueNames(members: map<int, Member>) {
    forall i, j :: i in members && j in members && members[i].name == members[j].name ==> i == j
  }

  /** `SELECT id, name, avatar FROM members ORDER BY name`: every member once, names strictly ascending. */
  ghost predicate IsMemberList(members: map<int, Member>, rows: seq<MemberRow>) {
    && Ids(rows, MemberRowId) == members.Keys
    && (forall i :: 0 <= i < |rows| ==> rows[i].id in members && rows[i] == MemberRow(rows[i].id, members[rows[i].id].name, members[rows[i].id].avatar))
    && (forall i, j :: 0 <= i < j < |rows| ==> LexLess(rows[i].name, rows[j].name))
  }

  /**
   * Where the engine places a name among rows already in strictly ascending
   * name order that do not hold it: after every smaller name, before the rest.
   */
  method MemberInsertionPoint(rows: seq<MemberRow>, name: string) returns (k: int)
    requires forall i, j :: 0 <= i < j < |rows| ==> LexLess(rows[i].name, rows[j].name)
    requires forall i :: 0 <= i < |rows| ==> rows[i].name != name
    ensures 0 <= k <= |rows|
    ensures forall j :: 0 <= j < k ==> LexLess(rows[j].name, name)
    ensures forall j :: k <= j < |rows| ==> LexLess(name, rows[j].name)
  {
    k := 0;
    while k < |rows| && LexLess(rows[k].name, name)
      invariant 0 <= k <= |rows|
      invariant forall j :: 0 <= j < k ==> LexLess(rows[j].name, name)
    {
      k := k + 1;
    }
    if k < |rows| {
      LexLessTotal(rows[k].name, name);
      forall j | k < j < |rows| ensures LexLess(name, rows[j].name) {
        LexLessTransitive(name, rows[k].name, rows[j].name);
      }
    }
  }

  /** The member-list SELECT, the engine modelled as placing each row after all smaller names. */
  method SelectMemberRows(members: map<int, Member>) returns (rows: seq<MemberRow>)
    requires UniqueNames(members)
    ensures IsMemberList(members, rows)
  {
    rows := [];
    var rest := members.Keys;
    while rest != {}
      invariant rest <= members.Keys
      invariant Ids(rows, MemberRowId) == members.Keys - rest
      invariant forall i :: 0 <= i < |rows| ==> rows[i].id in members && rows[i] == MemberRow(rows[i].id, members[rows[i].id].name, members[rows[i].id].avatar)
      invariant forall i, j :: 0 <= i < j < |rows| ==> LexLess(rows[i].name, rows[j].name)
      decreases rest
    {
      HasElement(rest);
      var id :| id in rest;
      var row := MemberRow(id, members[id].name, members[id].avatar);
      // every listed row belongs to another member, so by unique names holds another name
      forall i | 0 <= i < |rows| ensures rows[i].name != row.name {
        assert MemberRowId(rows[i]) in Ids(rows, MemberRowId);
      }
      var k := MemberInsertionPoint(rows, row.name);
      InsertedAt(rows, k, row, MemberRowId);
      rows := rows[..k] + [row] + rows[k..];
      rest := rest - {id};
    }
  }

  // ---------- Requests ----------

  /** `name.replace(' ', '+')` */
  function ReplaceSpaces(s: string): (r: string)
    ensures |r| == |s|
    ensures forall i :: 0 <= i < |s| ==> r[i] == (if s[i] == ' ' then '+' else s[i])
  {
    if s == [] then []
    else [if s[0] == ' ' then '+' else s[0]] + ReplaceSpaces(s[1..])
  }

  /** The avatar URL `add_member` makes up for a member who sent none. */
  function DefaultAvatar(name: string): (url: string)
    ensures ' ' !in url
  {
    "https://ui-avatars.com/api/?name=" + ReplaceSpaces(name) + "&background=ff642c&color=fff&size=200"
  }

  /** `data.get('avatar', default)`: the made-up URL only when the key is missing. */
  function ChooseAvatar(avatar: Field<string>, name: string): (r: Option<string>)
    ensures avatar.Absent? ==> r == Some(DefaultAvatar(name))
    ensures avatar.Null? ==> r == None
    ensures avatar.Value? ==> r == Some(avatar.v)
  {
    GetOr(avatar, DefaultAvatar(name))
  }

  /** The row the update routes write: `data.get(field, 0)` for each of the three stats. */
  function StatsOf(req: StatsRequest): (s: StoredStats)
    ensures s.sessions.None? <==> req.sessions.Null?
    ensures s.assessments.None? <==> req.assessments.Null?
    ensures s.bonus.None? <==> req.bonus.Null?
    ensures Coalesce(s.sessions) == (if req.sessions.Value? then req.sessions.v else 0)
    ensures Coalesce(s.assessments) == (if req.assessments.Value? then req.assessments.v else 0)
    ensures Coalesce(s.bonus) == (if req.bonus.Value? then req.bonus.v else 0)
  {
    StoredStats(GetOr(req.sessions, 0), GetOr(req.assessments, 0), GetOr(req.bonus, 0))
  }

  /** The rows of `table` that `DELETE ... WHERE member_id = ?` leaves. */
  function WithoutMember<K(==,!new)>(table: Table<K>, id: int): (r: Table<K>)
    ensures forall key :: key in r <==> key in table && key.0 != id
    ensures forall key :: key in r ==> r[key] == table[key]
  {
    map key | key in table && key.0 != id :: table[key]
  }

  /** A member with this name exists. */
  predicate NameTaken(members: map<int, Member>, name: string) {
    exists id :: id in members && members[id].name == name
  }

  // ---------- The database and the session ----------

  class Store {
    var members: map<int, Member>
    /** One more than the largest id AUTOINCREMENT has handed out. */
    var nextId: int
    var weekly: Table<Periods.DayNumber>
    var monthly: Table<string>
    var admins: map<string, Admin>
    var session: Option<SessionUser>
    /** `hash_password` (SHA-256), treated as an opaque function. */
    const hashPassword: string -> string

    /**
     * Ids come from AUTOINCREMENT and are never reused, names are unique,
     * and every stats row belongs to an existing member.
     */
    ghost predicate Valid()
      reads this
    {
      && 1 <= nextId
      && (forall id :: id in members ==> 1 <= id < nextId)
      && UniqueNames(members)
      && (forall key :: key in weekly ==> key.0 in members)
      && (forall key :: key in monthly ==> key.0 in members)
    }

    /** Freshly created tables with the given admin accounts and nobody logged in. */
    constructor (admins: map<string, Admin>, hashPassword: string -> string)
      ensures Valid()
      ensures this.admins == admins && this.hashPassword == hashPassword
      ensures members == map[] && nextId == 1 && weekly == map[] && monthly == map[] && session == None
    {
      this.members := map[];
      this.nextId := 1;
      this.weekly := map[];
      this.monthly := map[];
      this.admins := admins;
      this.session := None;
      this.hashPassword := hashPassword;
    }

    /** `SELECT * FROM admin_users WHERE username = ? AND password_hash = ?` finds a row. */
    predicate CredentialsMatch(username: string, password: string)
      reads this
    {
      username in admins && admins[username].passwordHash == hashPassword(password)
    }

    /** `login` */
    method Login(username: Field<string>, password: Field<string>) returns (r: Response)
      modifies this`session
      ensures !TruthyString(username) || !TruthyString(password) ==>
        r == Failure(400, "Username and password required", None) && session == old(session)
      ensures TruthyString(username) && TruthyString(password) && CredentialsMatch(username.v, password.v) ==>
        var admin := admins[username.v];
        && session == Some(SessionUser(admin.id, username.v, admin.role))
        && r == Success(LoggedIn(UserInfo(username.v, admin.role)))
      ensures TruthyString(username) && TruthyString(password) && !CredentialsMatch(username.v, password.v) ==>
        r == Failure(401, "Invalid credentials", None) && session == old(session)
    {
      if !TruthyString(username) || !TruthyString(password) {
        return Failure(400, "Username and password required", None);
      }
      var name := username.v;
      var passwordHash := hashPassword(password.v);
      if name in admins && admins[name].passwordHash == passwordHash {
        var admin := admins[name];
        session := Some(SessionUser(admin.id, name, admin.role));
        r := Success(LoggedIn(UserInfo(name, admin.role)));
      } else {
        r := Failure(401, "Invalid credentials", None);
      }
    }

    /** `logout`: `session.clear()` behind `require_auth`. */
    method Logout() returns (r: Response)
      modifies this`session
      ensures old(session).None? ==> r == AuthRequired && session == old(session)
      ensures old(session).Some? ==> r == Success(Message("Logged out")) && session == None
    {
      if session.None? {
        return AuthRequired;
      }
      session := None;
      r := Success(Message("Logged out"));
    }

    /** `auth_status` */
    method AuthStatus() returns (r: Response)
      ensures r.Success? && r.payload.AuthState?
      ensures r.payload.authenticated <==> session.Some?
      ensures session.Some? ==> r.payload.user == Some(UserInfo(session.value.username, session.value.role))
      ensures session.None? ==> r.payload.user == None
    {
      if session.Some? {
        r := Success(AuthState(true, Some(UserInfo(session.value.username, session.value.role))));
      } else {
        r := Success(AuthState(false, None));
      }
    }

    /** `get_weekly_leaderboard`, on the week that contains `today`. */
    method GetWeeklyLeaderboard(today: Periods.DayNumber) returns (r: Response)
      ensures r.Success? && r.payload.WeeklyBoard?
      ensures r.payload.weekStart == Periods.WeekStart(today)
      ensures IsBoard(members, weekly, Periods.WeekStart(today), r.payload.data)
    {
      var weekStart := Periods.WeekStart(today);
      var data := QueryBoard(members, weekly, weekStart);
      r := Success(WeeklyBoard(weekStart, data));
    }

    /** `get_monthly_leaderboard`, on the given month. */
    method GetMonthlyLeaderboard(year: int, month: int) returns (r: Response)
      requires 1 <= year <= 9999 && 1 <= month <= 12
      ensures r.Success? && r.payload.MonthlyBoard?
      ensures r.payload.monthYear == Periods.MonthKey(year, month)
      ensures IsBoard(members, monthly, Periods.MonthKey(year, month), r.payload.data)
    {
      var monthYear := Periods.MonthKey(year, month);
      var data := QueryBoard(members, monthly, monthYear);
      r := Success(MonthlyBoard(monthYear, data));
    }

    /** `get_members` */
    method GetMembers() returns (r: Response)
      requires Valid()
      ensures r.Success? && r.payload.MemberList?
      ensures IsMemberList(members, r.payload.rows)
    {
      var rows := SelectMemberRows(members);
      r := Success(MemberList(rows));
    }

    /** `add_member` */
    method AddMember(req: MemberRequest) returns (r: Response)
      requires Valid()
      modifies this`members, this`nextId
      ensures Valid()
      ensures old(session).None? ==> r == AuthRequired && unchanged(this)
      ensures session.Some? && !TruthyString(req.name) ==>
        r == Failure(400, "Name is required", None) && unchanged(this)
      ensures session.Some? && TruthyString(req.name) && NameTaken(old(members), req.name.v) ==>
        r == Failure(400, "Member already exists", None) && unchanged(this)
      ensures session.Some? && TruthyString(req.name) && !NameTaken(old(members), req.name.v) ==>
        var avatar := ChooseAvatar(req.avatar, req.name.v);
        && old(nextId) !in old(members)
        && members == old(members)[old(nextId) := Member(req.name.v, avatar)]
        && nextId == old(nextId) + 1
        && r == Success(MemberAdded(old(nextId), req.name.v, avatar))
    {
      if session.None? {
        return AuthRequired;
      }
      if !TruthyString(req.name) {
        return Failure(400, "Name is required", None);
      }
      var name := req.name.v;
      var avatar := ChooseAvatar(req.avatar, name);
      if NameTaken(members, name) {
        return Failure(400, "Member already exists", None);
      }
      var id := nextId;
      members := members[id := Member(name, avatar)];
      nextId := nextId + 1;
      r := Success(MemberAdded(id, name, avatar));
    }

    /** `update_weekly_leaderboard`, in the week that contains `today`. */
    method UpdateWeeklyLeaderboard(req: StatsRequest, today: Periods.DayNumber) returns (r: Response)
      requires Valid()
      modifies this`weekly
      ensures Valid()
      ensures old(session).None? ==> r == AuthRequired && unchanged(this)
      ensures session.Some? && !TruthyInt(req.memberId) ==>
        r == Failure(400, "member_id is required", None) && unchanged(this)
      ensures session.Some? && TruthyInt(req.memberId) && req.memberId.v !in members ==>
        r == Failure(404, "Member not found", None) && unchanged(this)
      ensures session.Some? && TruthyInt(req.memberId) && req.memberId.v in members ==>
        && weekly == old(weekly)[(req.memberId.v, Periods.WeekStart(today)) := StatsOf(req)]
        && r == Success(Message("Weekly leaderboard updated"))
    {
      if session.None? {
        return AuthRequired;
      }
      if !TruthyInt(req.memberId) {
        return Failure(400, "member_id is required", None);
      }
      var memberId := req.memberId.v;
      var weekStart := Periods.WeekStart(today);
      if memberId !in members {
        return Failure(404, "Member not found", None);
      }
      weekly := weekly[(memberId, weekStart) := StatsOf(req)];
      r := Success(Message("Weekly leaderboard updated"));
    }

    /** `update_monthly_leaderboard`, in the given month. */
    method UpdateMonthlyLeaderboard(req: StatsRequest, year: int, month: int) returns (r: Response)
      requires Valid()
      requires 1 <= year <= 9999 && 1 <= month <= 12
      modifies this`monthly
      ensures Valid()
      ensures old(session).None? ==> r == AuthRequired && unchanged(this)
      ensures session.Some? && !TruthyInt(req.memberId) ==>
        r == Failure(400, "member_id is required", None) && unchanged(this)
      ensures session.Some? && TruthyInt(req.memberId) && req.memberId.v !in members ==>
        r == Failure(404, "Member not found", None) && unchanged(this)
      ensures session.Some? && TruthyInt(req.memberId) && req.memberId.v in members ==>
        && monthly == old(monthly)[(req.memberId.v, Periods.MonthKey(year, month)) := StatsOf(req)]
        && r == Success(Message("Monthly leaderboard updated"))
    {
      if session.None? {
        return AuthRequired;
      }
      if !TruthyInt(req.memberId) {
        return Failure(400, "member_id is required", None);
      }
      var memberId := req.memberId.v;
      var monthYear := Periods.MonthKey(year, month);
      if memberId !in members {
        return Failure(404, "Member not found", None);
      }
      monthly := monthly[(memberId, monthYear) := StatsOf(req)];
      r := Success(Message("Monthly leaderboard updated"));
    }

    /** `delete_member`: the member and all of its weekly and monthly rows. */
    method DeleteMember(memberId: nat) returns (r: Response)
      requires Valid()
      modifies this`members, this`weekly, this`monthly
      ensures Valid()
      ensures old(session).None? ==> r == AuthRequired && unchanged(this)
      ensures session.Some? && memberId !in old(members) ==>
        r == Failure(404, "Member not found", None) && unchanged(this)
      ensures session.Some? && memberId in old(members) ==>
        && members == old(members) - {memberId}
        && weekly == WithoutMember(old(weekly), memberId)
        && monthly == WithoutMember(old(monthly), memberId)
        && r == Success(Message("Member " + old(members)[memberId].name + " deleted"))
    {
      if session.None? {
        return AuthRequired;
      }
      if memberId !in members {
        return Failure(404, "Member not found", None);
      }
      var name := members[memberId].name;
      weekly := WithoutMember(weekly, memberId);
      monthly := WithoutMember(monthly, memberId);
      members := members - {memberId};
      r := Success(Message("Member " + name + " deleted"));
    }
  }
}
