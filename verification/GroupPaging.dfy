/** Listing groups page by page, newest activity first, while activity moves them. */
module GroupPaging {
  import opened Options

  const MAX_MEMBERS := 16

  type GroupId = nat

  datatype Key = Key(sortAt: int, group: GroupId)

  datatype Cursor = Cursor(upper: Key, after: Key, archived: bool)

  predicate Less(a: Key, b: Key) {
    a.sortAt < b.sortAt || (a.sortAt == b.sortAt && a.group < b.group)
  }

  /** Positive when the first key is the newer one. */
  function Compare(left: Key, right: Key): int {
    if left.sortAt > right.sortAt then 1
    else if left.sortAt < right.sortAt then -1
    else if left.group == right.group then 0
    else if left.group > right.group then 1
    else -1
  }

  /** The comparison is the lexicographic order. */
  lemma CompareIsOrder(a: Key, b: Key)
    ensures Compare(a, b) > 0 <==> Less(b, a)
    ensures Compare(a, b) == 0 <==> a == b
    ensures Compare(a, b) == -Compare(b, a)
  {
  }

  predicate ValidKey(k: Key) {
    k.sortAt != 0 && k.group != 0
  }

  predicate ValidCursor(cursor: Option<Cursor>) {
    cursor.None?
    || (ValidKey(cursor.value.upper) && ValidKey(cursor.value.after) && Compare(cursor.value.after, cursor.value.upper) <= 0)
  }

  // ----- One page -----

  /** The groups a caller may list at one moment, with the time of their latest activity. */
  type Listing = map<GroupId, int>

  predicate Candidate(m: Listing, cursor: Option<Cursor>, k: Key) {
    && k.group in m && m[k.group] == k.sortAt
    && (cursor.Some? ==> !Less(cursor.value.upper, k) && Less(k, cursor.value.after))
  }

  /** What the query answers: the newest candidates in order, at most `limit` of them, and
      whether there are more. */
  ghost predicate IsPage(m: Listing, cursor: Option<Cursor>, limit: nat, keys: seq<Key>, hasMore: bool) {
    && |keys| <= limit
    && (forall i, j :: 0 <= i < j < |keys| ==> Less(keys[j], keys[i]))
    && (forall k <- keys :: Candidate(m, cursor, k))
    && (forall g <- m :: Candidate(m, cursor, Key(m[g], g)) && Key(m[g], g) !in keys ==>
          hasMore && forall k <- keys :: Less(Key(m[g], g), k))
    && (hasMore ==> |keys| == limit && exists g <- m :: Candidate(m, cursor, Key(m[g], g)) && Key(m[g], g) !in keys)
  }

  function Next(cursor: Option<Cursor>, keys: seq<Key>, hasMore: bool, archived: bool): Option<Cursor> {
    if hasMore && keys != [] then
      Some(Cursor(if cursor.Some? then cursor.value.upper else keys[0], keys[|keys| - 1], archived))
    else None
  }

  /** One row of the joined result: a listed group and one of its members. */
  datatype Row = Row(key: Key, member: nat)

  datatype Group = Group(key: Key, members: seq<nat>)

  datatype PageResult = TooManyMembers | Paged(groups: seq<Group>, next: Option<Cursor>)

  /** Consecutive rows of one group form one entry. */
  function Assembled(rows: seq<Row>): seq<Group> {
    if rows == [] then []
    else
      var before, row := Assembled(rows[..|rows| - 1]), rows[|rows| - 1];
      if before == [] || before[|before| - 1].key.group != row.key.group then before + [Group(row.key, [row.member])]
      else before[|before| - 1 := Group(before[|before| - 1].key, before[|before| - 1].members + [row.member])]
  }

  function Keys(groups: seq<Group>): seq<Key> {
    seq(|groups|, i requires 0 <= i < |groups| => groups[i].key)
  }

  predicate Oversized(groups: seq<Group>) {
    exists g <- groups :: |g.members| > MAX_MEMBERS
  }

  /** The entry a row belongs to, started when the row begins a new group. */
  method AddRow(groups: seq<Group>, row: Row) returns (added: seq<Group>)
    ensures added == if groups == [] || groups[|groups| - 1].key.group != row.key.group then groups + [Group(row.key, [row.member])]
                     else groups[|groups| - 1 := Group(groups[|groups| - 1].key, groups[|groups| - 1].members + [row.member])]
    ensures added != []
    ensures added == groups + [added[|added| - 1]]
            || (|added| == |groups| && added == groups[|groups| - 1 := added[|added| - 1]])
  {
    added := groups;
    if |added| == 0 || added[|added| - 1].key.group != row.key.group {
      added := added + [Group(row.key, [])];
      assert [] + [row.member] == [row.member];
      assert added[|added| - 1 := Group(row.key, [row.member])] == groups + [Group(row.key, [row.member])];
    }
    var last := added[|added| - 1];
    added := added[|added| - 1 := Group(last.key, last.members + [row.member])];
  }

  method AssembleRows(rows: seq<Row>) returns (groups: seq<Group>, tooMany: bool)
    ensures tooMany == Oversized(Assembled(rows))
    ensures !tooMany ==> groups == Assembled(rows)
  {
    hide Assembled, Oversized;
    groups := [];
    NoRowsYet(rows);
    for i := 0 to |rows|
      invariant groups == Assembled(rows[..i]) && !Oversized(groups)
    {
      RowAdded(rows, i);
      var before := groups;
      groups := AddRow(groups, rows[i]);
      LastIsOversized(before, groups);
      if |groups[|groups| - 1].members| > MAX_MEMBERS {
        MembersOnlyGrow(rows, i + 1);
        return groups, true;
      }
    }
    assert rows[..|rows|] == rows;
    return groups, false;
  }

  lemma NoRowsYet(rows: seq<Row>)
    ensures Assembled(rows[..0]) == [] && !Oversized([])
  {
  }

  lemma LastIsOversized(before: seq<Group>, groups: seq<Group>)
    requires groups != [] && !Oversized(before)
    requires groups == before + [groups[|groups| - 1]] || (|groups| == |before| && groups == before[|before| - 1 := groups[|groups| - 1]])
    ensures Oversized(groups) <==> |groups[|groups| - 1].members| > MAX_MEMBERS
  {
    assert groups[|groups| - 1] in groups;
  }

  method ListGroupsPage(rows: seq<Row>, hasMore: bool, cursor: Option<Cursor>, archived: bool) returns (page: PageResult)
    ensures var groups := Assembled(rows);
            page == if exists g <- groups :: |g.members| > 16 then TooManyMembers
                    else Paged(groups, Next(cursor, Keys(groups), hasMore, archived))
  {
    hide Assembled;
    var groups, tooMany := AssembleRows(rows);
    if tooMany { return TooManyMembers; }
    var next := None;
    if hasMore && |groups| > 0 {
      var upper := groups[0].key;
      if cursor.Some? {
        upper := cursor.value.upper;
      }
      next := Some(Cursor(upper, groups[|groups| - 1].key, archived));
    }
    return Paged(groups, next);
  }

  lemma RowAdded(rows: seq<Row>, i: nat)
    requires i < |rows|
    ensures var before, row := Assembled(rows[..i]), rows[i];
            Assembled(rows[..i + 1]) ==
              if before == [] || before[|before| - 1].key.group != row.key.group then before + [Group(row.key, [row.member])]
              else before[|before| - 1 := Group(before[|before| - 1].key, before[|before| - 1].members + [row.member])]
    ensures [] + [rows[i].member] == [rows[i].member]
  {
    assert rows[..i + 1][..i] == rows[..i];
  }

  /** An entry that is too large stays too large as rows are added. */
  lemma {:induction false} MembersOnlyGrow(rows: seq<Row>, i: nat)
    requires i <= |rows| && Oversized(Assembled(rows[..i]))
    ensures Oversized(Assembled(rows))
    decreases |rows| - i
  {
    if i == |rows| {
      assert rows[..i] == rows;
    } else {
      RowAdded(rows, i);
      var before, now := Assembled(rows[..i]), Assembled(rows[..i + 1]);
      var k :| 0 <= k < |before| && |before[k].members| > MAX_MEMBERS;
      assert |now[k].members| > MAX_MEMBERS && now[k] in now;
      hide Assembled;
      MembersOnlyGrow(rows, i + 1);
    }
  }

  /** The rows of consecutive groups, each with at least one member. */
  function RowsOf(groups: seq<Group>): seq<Row> {
    if groups == [] then []
    else RowsOf(groups[..|groups| - 1]) + MemberRows(groups[|groups| - 1].key, groups[|groups| - 1].members)
  }

  function MemberRows(key: Key, members: seq<nat>): seq<Row> {
    if members == [] then [] else MemberRows(key, members[..|members| - 1]) + [Row(key, members[|members| - 1])]
  }

  lemma AssembledSnoc(rows: seq<Row>, row: Row)
    ensures var before := Assembled(rows);
            Assembled(rows + [row]) ==
              if before == [] || before[|before| - 1].key.group != row.key.group then before + [Group(row.key, [row.member])]
              else before[|before| - 1 := Group(before[|before| - 1].key, before[|before| - 1].members + [row.member])]
  {
    assert (rows + [row])[..|rows|] == rows;
  }

  lemma {:induction false} AssembledExtends(rows: seq<Row>, key: Key, members: seq<nat>)
    requires members != []
    requires Assembled(rows) == [] || Assembled(rows)[|Assembled(rows)| - 1].key.group != key.group
    ensures Assembled(rows + MemberRows(key, members)) == Assembled(rows) + [Group(key, members)]
    decreases |members|
  {
    hide Assembled;
    var rest, last := members[..|members| - 1], members[|members| - 1];
    var before := rows + MemberRows(key, rest);
    assert rows + MemberRows(key, members) == before + [Row(key, last)];
    assert members == rest + [last];
    AssembledSnoc(before, Row(key, last));
    hide MemberRows;
    if rest == [] {
      NoRows(rows, key);
    } else {
      AssembledExtends(rows, key, rest);
      Replaced(Assembled(rows), Group(key, rest), Group(key, members));
    }
  }

  lemma NoRows(rows: seq<Row>, key: Key)
    ensures rows + MemberRows(key, []) == rows
  {
  }

  lemma Replaced(groups: seq<Group>, a: Group, b: Group)
    ensures (groups + [a])[|groups| := b] == groups + [b]
  {
  }

  /** Assembling the rows of different groups gives the groups back. */
  lemma {:induction false} AssembledRoundTrip(groups: seq<Group>)
    requires forall g <- groups :: g.members != []
    requires forall i, j :: 0 <= i < j < |groups| ==> groups[i].key.group != groups[j].key.group
    ensures Assembled(RowsOf(groups)) == groups
    decreases |groups|
  {
    if groups != [] {
      hide Assembled, MemberRows;
      var rest, last := groups[..|groups| - 1], groups[|groups| - 1];
      assert groups == rest + [last] && last in groups;
      assert forall g <- rest :: g in groups;
      AssembledRoundTrip(rest);
      assert RowsOf(groups) == RowsOf(rest) + MemberRows(last.key, last.members);
      hide RowsOf;
      AssembledExtends(RowsOf(rest), last.key, last.members);
    }
  }

  // ----- A traversal -----

  datatype Visit = Visit(listing: Listing, keys: seq<Key>, hasMore: bool)

  /** The cursor with which the visit at position `i` is asked for. */
  function CursorAt(visits: seq<Visit>, i: nat): Option<Cursor>
    requires i <= |visits|
  {
    if i == 0 then None else Next(CursorAt(visits, i - 1), visits[i - 1].keys, visits[i - 1].hasMore, false)
  }

  ghost predicate PageAt(visits: seq<Visit>, limit: nat, i: nat)
    requires i < |visits|
  {
    IsPage(visits[i].listing, CursorAt(visits, i), limit, visits[i].keys, visits[i].hasMore)
  }

  /** Each page but the first is asked for with the cursor of the one before. */
  ghost predicate Traversal(visits: seq<Visit>, limit: nat) {
    && 1 <= limit
    && (forall i :: 0 <= i < |visits| ==> PageAt(visits, limit, i))
    && (forall i :: 0 <= i < |visits| - 1 ==> visits[i].hasMore)
  }

  /** Between pages groups may come and go, but activity only raises a sort key. */
  ghost predicate KeysOnlyGrow(visits: seq<Visit>) {
    forall i, j, g :: 0 <= i <= j < |visits| && g in visits[i].listing && g in visits[j].listing ==>
      visits[i].listing[g] <= visits[j].listing[g]
  }

  lemma {:induction false} PageShape(m: Listing, cursor: Option<Cursor>, limit: nat, keys: seq<Key>, hasMore: bool, k: Key)
    requires IsPage(m, cursor, limit, keys, hasMore) && k in keys
    ensures keys != [] && !Less(k, keys[|keys| - 1]) && !Less(keys[0], k)
    ensures cursor.Some? ==> Less(k, cursor.value.after)
    ensures k.group in m && m[k.group] == k.sortAt
  {
    assert Candidate(m, cursor, k);
    var i :| 0 <= i < |keys| && keys[i] == k;
  }

  /** Every cursor handed out keeps its lower end at or below its upper end, moves down, and
      keeps the upper end of the first page. */
  lemma {:induction false} CursorsDescend(visits: seq<Visit>, limit: nat, i: nat)
    requires Traversal(visits, limit) && 0 < i <= |visits| && visits[i - 1].hasMore
    ensures var c := CursorAt(visits, i);
            && c.Some? && visits[0].keys != [] && c.value.upper == visits[0].keys[0]
            && !Less(c.value.upper, c.value.after)
            && visits[i - 1].keys != [] && c.value.after == visits[i - 1].keys[|visits[i - 1].keys| - 1]
            && (1 < i ==> CursorAt(visits, i - 1).Some? && Less(c.value.after, CursorAt(visits, i - 1).value.after))
    decreases i
  {
    hide IsPage;
    var v := visits[i - 1];
    assert PageAt(visits, limit, i - 1);
    FullPage(v, CursorAt(visits, i - 1), limit);
    PageShape(v.listing, CursorAt(visits, i - 1), limit, v.keys, v.hasMore, v.keys[|v.keys| - 1]);
    if 1 < i {
      CursorsDescend(visits, limit, i - 1);
    }
  }

  lemma FullPage(v: Visit, cursor: Option<Cursor>, limit: nat)
    requires IsPage(v.listing, cursor, limit, v.keys, v.hasMore) && 1 <= limit && v.hasMore
    ensures |v.keys| == limit && v.keys[|v.keys| - 1] in v.keys
  {
  }

  /** A cursor with proper keys passes the check made when it comes back. */
  lemma {:induction false} CursorsAreValid(visits: seq<Visit>, limit: nat, i: nat)
    requires Traversal(visits, limit) && 0 < i <= |visits| && visits[i - 1].hasMore
    requires forall v <- visits :: forall k <- v.keys :: ValidKey(k)
    ensures ValidCursor(CursorAt(visits, i))
  {
    CursorsDescend(visits, limit, i);
    var c := CursorAt(visits, i).value;
    CompareIsOrder(c.after, c.upper);
    assert visits[0].keys[0] in visits[0].keys && visits[0] in visits;
    assert c.after in visits[i - 1].keys && visits[i - 1] in visits;
  }

  /** What a page lists lies at or above every later cursor. */
  lemma {:induction false} ListedAbove(visits: seq<Visit>, limit: nat, i: nat, j: nat, k: Key)
    requires Traversal(visits, limit) && i < j <= |visits| && visits[j - 1].hasMore && k in visits[i].keys
    ensures CursorAt(visits, j).Some? && !Less(k, CursorAt(visits, j).value.after)
    decreases j - i
  {
    hide IsPage, Less, CursorAt;
    CursorsDescend(visits, limit, j);
    if j == i + 1 {
      var v := visits[i];
      assert PageAt(visits, limit, i);
      PageShape(v.listing, CursorAt(visits, i), limit, v.keys, v.hasMore, k);
    } else {
      assert visits[j - 2].hasMore;
      ListedAbove(visits, limit, i, j - 1, k);
      LowerCursor(k, CursorAt(visits, j - 1).value.after, CursorAt(visits, j).value.after);
    }
  }

  lemma LowerCursor(k: Key, a: Key, b: Key)
    requires !Less(k, a) && Less(b, a)
    ensures !Less(k, b)
  {
  }

  /** No group is listed twice, even when activity raises its key between the pages. */
  lemma {:induction false} NoGroupTwice(visits: seq<Visit>, limit: nat, i: nat, j: nat, a: Key, b: Key)
    requires Traversal(visits, limit) && KeysOnlyGrow(visits)
    requires i <= j < |visits| && a in visits[i].keys && b in visits[j].keys && a.group == b.group
    ensures i == j && a == b
  {
    hide IsPage;
    assert PageAt(visits, limit, i);
    assert PageAt(visits, limit, j);
    PageShape(visits[i].listing, CursorAt(visits, i), limit, visits[i].keys, visits[i].hasMore, a);
    PageShape(visits[j].listing, CursorAt(visits, j), limit, visits[j].keys, visits[j].hasMore, b);
    if i < j {
      assert visits[j - 1].hasMore;
      ListedAbove(visits, limit, i, j, a);
      assert false;
    }
  }

  ghost predicate ListedBefore(visits: seq<Visit>, n: nat, k: Key)
    requires n <= |visits|
  {
    exists i :: 0 <= i < n && k in visits[i].keys
  }

  ghost predicate StillToCome(cursor: Option<Cursor>, k: Key) {
    cursor.Some? ==> !Less(cursor.value.upper, k) && Less(k, cursor.value.after)
  }

  /** A group that stays visible with the same key: either it has been listed, or it lies
      below the next cursor. */
  lemma {:induction false} ListedOrBelow(visits: seq<Visit>, limit: nat, n: nat, k: Key)
    requires Traversal(visits, limit) && n <= |visits|
    requires forall v <- visits :: k.group in v.listing && v.listing[k.group] == k.sortAt
    ensures ListedBefore(visits, n, k) || (StillToCome(CursorAt(visits, n), k) && (n > 0 ==> visits[n - 1].hasMore))
    decreases n
  {
    hide IsPage, Less;
    if n > 0 {
      var v := visits[n - 1];
      assert v in visits;
      assert PageAt(visits, limit, n - 1);
      ListedOrBelow(visits, limit, n - 1, k);
      if !ListedBefore(visits, n, k) {
        assert k !in v.keys;
        assert !ListedBefore(visits, n - 1, k);
        MissedIsBelow(v, CursorAt(visits, n - 1), limit, k);
        hide Traversal, ListedBefore;
      }
    }
  }

  lemma {:induction false} MissedIsBelow(v: Visit, cursor: Option<Cursor>, limit: nat, k: Key)
    requires IsPage(v.listing, cursor, limit, v.keys, v.hasMore) && 1 <= limit
    requires k.group in v.listing && v.listing[k.group] == k.sortAt && StillToCome(cursor, k) && k !in v.keys
    ensures v.hasMore && StillToCome(Next(cursor, v.keys, v.hasMore, false), k)
  {
    assert Key(v.listing[k.group], k.group) == k;
    if v.hasMore {
      assert v.keys[|v.keys| - 1] in v.keys && v.keys[0] in v.keys;
    }
  }

  /** A finished traversal lists every group that did not change, exactly once. */
  lemma {:induction false} UnchangedListedOnce(visits: seq<Visit>, limit: nat, k: Key)
    requires Traversal(visits, limit) && KeysOnlyGrow(visits)
    requires visits != [] && !visits[|visits| - 1].hasMore
    requires forall v <- visits :: k.group in v.listing && v.listing[k.group] == k.sortAt
    ensures exists i :: 0 <= i < |visits| && k in visits[i].keys
    ensures forall i, j :: 0 <= i < |visits| && 0 <= j < |visits| && k in visits[i].keys && k in visits[j].keys ==> i == j
  {
    ListedOrBelow(visits, limit, |visits|, k);
    hide Traversal, CursorAt;
    forall i, j | 0 <= i < |visits| && 0 <= j < |visits| && k in visits[i].keys && k in visits[j].keys ensures i == j {
      if i <= j { NoGroupTwice(visits, limit, i, j, k, k); } else { NoGroupTwice(visits, limit, j, i, k, k); }
    }
  }

  function GroupsOf(keys: seq<Key>): set<GroupId> {
    set k <- keys :: k.group
  }

  function ListedGroups(visits: seq<Visit>, n: nat): set<GroupId>
    requires n <= |visits|
  {
    if n == 0 then {} else ListedGroups(visits, n - 1) + GroupsOf(visits[n - 1].keys)
  }

  lemma {:induction false} ListedFrom(visits: seq<Visit>, n: nat, g: GroupId)
    requires n <= |visits| && g in ListedGroups(visits, n)
    ensures exists i, k :: 0 <= i < n && k in visits[i].keys && k.group == g
    decreases n
  {
    if g in GroupsOf(visits[n - 1].keys) {
      var k :| k in visits[n - 1].keys && k.group == g;
    } else {
      ListedFrom(visits, n - 1, g);
    }
  }

  lemma {:induction false} GroupsCount(m: Listing, keys: seq<Key>)
    requires forall k <- keys :: k.group in m && m[k.group] == k.sortAt
    requires forall i, j :: 0 <= i < j < |keys| ==> Less(keys[j], keys[i])
    ensures |GroupsOf(keys)| == |keys|
    decreases |keys|
  {
    if keys != [] {
      var rest, last := keys[..|keys| - 1], keys[|keys| - 1];
      GroupsCount(m, rest);
      assert GroupsOf(keys) == GroupsOf(rest) + {last.group} by {
        assert keys == rest + [last];
        assert forall k :: k in keys <==> k in rest || k == last;
      }
      forall k <- rest ensures k.group != last.group {
        var i :| 0 <= i < |rest| && rest[i] == k;
        assert keys[i] == k;
      }
    }
  }

  lemma {:induction false} FullPagesCount(visits: seq<Visit>, limit: nat, n: nat)
    requires Traversal(visits, limit) && KeysOnlyGrow(visits) && n <= |visits|
    requires forall i :: 0 <= i < n ==> visits[i].hasMore
    ensures |ListedGroups(visits, n)| == n * limit
    decreases n
  {
    hide Less, Candidate;
    if n > 0 {
      FullPagesCount(visits, limit, n - 1);
      var v := visits[n - 1];
      assert PageAt(visits, limit, n - 1);
      PageGroups(v, CursorAt(visits, n - 1), limit);
      hide IsPage;
      forall g | g in ListedGroups(visits, n - 1) && g in GroupsOf(v.keys) ensures false {
        ListedFrom(visits, n - 1, g);
        var i, k :| 0 <= i < n - 1 && k in visits[i].keys && k.group == g;
        var b :| b in v.keys && b.group == g;
        NoGroupTwice(visits, limit, i, n - 1, k, b);
      }
      assert (n - 1) * limit + limit == n * limit;
    }
  }

  lemma {:induction false} PageGroups(v: Visit, cursor: Option<Cursor>, limit: nat)
    requires IsPage(v.listing, cursor, limit, v.keys, v.hasMore) && v.hasMore
    ensures |GroupsOf(v.keys)| == limit
  {
    GroupsCount(v.listing, v.keys);
  }

  /** A traversal ends when no groups are created: pages with more to come list different
      groups of a fixed set, `limit` each. */
  lemma {:induction false} TraversalEnds(visits: seq<Visit>, limit: nat, groups: set<GroupId>)
    requires Traversal(visits, limit) && KeysOnlyGrow(visits)
    requires forall v <- visits, g <- v.listing :: g in groups
    requires forall v <- visits :: v.hasMore
    ensures |visits| * limit <= |groups|
  {
    FullPagesCount(visits, limit, |visits|);
    ListedWithin(visits, limit, |visits|, groups);
    var listed := ListedGroups(visits, |visits|);
    assert groups == listed + (groups - listed);
    assert |groups| == |listed| + |groups - listed|;
  }

  lemma {:induction false} ListedWithin(visits: seq<Visit>, limit: nat, n: nat, groups: set<GroupId>)
    requires Traversal(visits, limit) && n <= |visits|
    requires forall v <- visits, g <- v.listing :: g in groups
    ensures ListedGroups(visits, n) <= groups
  {
    hide IsPage, Less, CursorAt, ListedGroups;
    forall g <- ListedGroups(visits, n) ensures g in groups {
      ListedFrom(visits, n, g);
      var i, k :| 0 <= i < n && k in visits[i].keys && k.group == g;
      assert PageAt(visits, limit, i);
      PageShape(visits[i].listing, CursorAt(visits, i), limit, visits[i].keys, visits[i].hasMore, k);
      assert visits[i] in visits;
    }
  }

  /** A page comes without a cursor exactly when it shows everything that was left to list;
      otherwise the cursor goes on below the page, under the same upper end and for the same
      archive. */
  lemma {:induction false} PageWithoutCursorIsLast(m: Listing, cursor: Option<Cursor>, limit: nat, keys: seq<Key>, hasMore: bool, archived: bool)
    requires IsPage(m, cursor, limit, keys, hasMore) && 1 <= limit
    ensures var next := Next(cursor, keys, hasMore, archived);
            && (next.None? <==> forall g <- m :: Candidate(m, cursor, Key(m[g], g)) ==> Key(m[g], g) in keys)
            && (next.Some? ==>
                  && next.value.archived == archived
                  && (forall k <- keys :: !Less(k, next.value.after)) && next.value.after in keys
                  && (if cursor.Some? then next.value.upper == cursor.value.upper
                      else next.value.upper in keys && forall k <- keys :: !Less(next.value.upper, k)))
  {
    if hasMore {
      forall k <- keys ensures !Less(k, keys[|keys| - 1]) && !Less(keys[0], k) {
        PageShape(m, cursor, limit, keys, hasMore, k);
      }
    }
    hide Candidate;
  }

  /** A cursor is refused exactly when an end is missing a part or the ends are the wrong way
      round. */
  lemma {:induction false} CursorIsCheckedExactly(c: Cursor)
    ensures ValidCursor(Some(c)) <==>
              && c.upper.sortAt != 0 && c.upper.group != 0 && c.after.sortAt != 0 && c.after.group != 0
              && !Less(c.upper, c.after)
  {
  }
}
