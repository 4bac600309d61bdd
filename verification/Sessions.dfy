/**
 Login sessions and the concurrent-session cap (app/services/session_service.py): every new
 session is inserted, then everything past the newest `max_concurrent_sessions` rows is deleted.
 SQL leaves the order of rows with equal `last_active` open; here the larger id comes first.
 */
module Sessions {
  import opened Prelude

  datatype Session = Session(owner: nat, lastActive: Time, expiresAt: Time)

  type Table = map<nat, Session>

  function OwnedBy(rows: Table, owner: nat): set<nat> {
    set id | id in rows && rows[id].owner == owner
  }

  /** `ORDER BY last_active DESC` lists `a` before `b`. */
  predicate Newer(rows: Table, a: nat, b: nat)
    requires a in rows && b in rows
  {
    rows[a].lastActive > rows[b].lastActive || (rows[a].lastActive == rows[b].lastActive && a > b)
  }

  predicate IsNewest(rows: Table, ids: set<nat>, m: nat)
    requires ids <= rows.Keys
  {
    m in ids && forall id | id in ids && id != m :: Newer(rows, m, id)
  }

  lemma {:induction false} NewestExists(rows: Table, ids: set<nat>)
    requires ids <= rows.Keys && ids != {}
    ensures exists m :: IsNewest(rows, ids, m)
  {
    var x :| x in ids;
    if ids == {x} {
      assert IsNewest(rows, ids, x);
    } else {
      var rest := ids - {x};
      assert rest != {};
      NewestExists(rows, rest);
      var m :| IsNewest(rows, rest, m);
      if Newer(rows, x, m) {
        forall id | id in ids && id != x ensures Newer(rows, x, id) {
          assert id == m || Newer(rows, m, id);
        }
        assert IsNewest(rows, ids, x);
      } else {
        assert IsNewest(rows, ids, m);
      }
    }
  }

  /** `SELECT id ... ORDER BY last_active DESC` */
  function NewestFirst(rows: Table, ids: set<nat>): (list: seq<nat>)
    requires ids <= rows.Keys
    ensures |list| == |ids| && forall id :: id in list <==> id in ids
    ensures forall i, j | 0 <= i < j < |list| :: Newer(rows, list[i], list[j])
  {
    if ids == {} then []
    else
      NewestExists(rows, ids);
      var m :| m in ids && IsNewest(rows, ids, m);
      [m] + NewestFirst(rows, ids - {m})
  }

  function Elements(list: seq<nat>): set<nat> {
    set id | id in list
  }

  /** The ids past the first `cap` of the owner's rows. */
  function Overflow(rows: Table, owner: nat, cap: nat): set<nat> {
    var list := NewestFirst(rows, OwnedBy(rows, owner));
    if |list| <= cap then {} else Elements(list[cap..])
  }

  function Prune(rows: Table, owner: nat, cap: nat): Table {
    rows - Overflow(rows, owner, cap)
  }

  /** `create_user_session`: insert, then enforce the limit. */
  function Create(rows: Table, id: nat, session: Session, cap: nat): Table {
    Prune(rows[id := session], session.owner, cap)
  }

  // ---- The cap keeps exactly the newest rows ----

  lemma SetSize(list: seq<nat>)
    requires forall i, j | 0 <= i < j < |list| :: list[i] != list[j]
    ensures |Elements(list)| == |list|
  {
    if list == [] {
      assert Elements(list) == {};
    } else {
      var n := |list| - 1;
      SetSize(list[..n]);
      assert list[n] !in Elements(list[..n]);
      assert Elements(list) == Elements(list[..n]) + {list[n]};
    }
  }

  function NewerThan(rows: Table, owner: nat, id: nat): set<nat>
    requires id in rows
  {
    set other | other in OwnedBy(rows, owner) && Newer(rows, other, id)
  }

  lemma RankInList(rows: Table, owner: nat, i: nat)
    requires i < |NewestFirst(rows, OwnedBy(rows, owner))|
    ensures |NewerThan(rows, owner, NewestFirst(rows, OwnedBy(rows, owner))[i])| == i
  {
    hide NewestFirst;
    var list := NewestFirst(rows, OwnedBy(rows, owner));
    var newer, first := NewerThan(rows, owner, list[i]), list[..i];
    forall other | other in newer ensures other in first {
      var j :| 0 <= j < |list| && list[j] == other;
      assert i == j || i < j || first[j] == other;
    }
    forall other | other in first ensures other in newer {
      var j :| 0 <= j < i && list[j] == other;
    }
    assert newer == Elements(first);
    SetSize(first);
  }

  /** An id is pruned iff at least `cap` rows of the owner are newer: a rank, not a position in a query. */
  lemma OverflowIsRank(rows: Table, owner: nat, cap: nat, id: nat)
    requires id in OwnedBy(rows, owner)
    ensures id in Overflow(rows, owner, cap) <==> |NewerThan(rows, owner, id)| >= cap
  {
    hide NewestFirst;
    hide NewerThan;
    var list := NewestFirst(rows, OwnedBy(rows, owner));
    var i :| 0 <= i < |list| && list[i] == id;
    RankInList(rows, owner, i);
    if i >= cap {
      assert list[cap..][i - cap] == id;
    }
  }

  /** `after` is `rows` less the owner's rows past the newest `cap`. */
  ghost predicate KeepsNewest(rows: Table, after: Table, owner: nat, cap: nat) {
    var n := |OwnedBy(rows, owner)|;
    && |OwnedBy(after, owner)| == (if n <= cap then n else cap)
    && (forall id | id in after :: id in rows && after[id] == rows[id])
    && (forall gone | gone in rows && gone !in after :: rows[gone].owner == owner)
    && (forall kept, gone | kept in after && after[kept].owner == owner && gone in rows && gone !in after ::
          Newer(rows, kept, gone))
  }

  lemma PruneKeepsNewest(rows: Table, owner: nat, cap: nat)
    ensures KeepsNewest(rows, Prune(rows, owner, cap), owner, cap)
  {
    hide NewestFirst;
    var list := NewestFirst(rows, OwnedBy(rows, owner));
    forall i | 0 <= i < |list| ensures list[i] in OwnedBy(rows, owner) {
      assert list[i] in list;
    }
    if |list| > cap {
      DropTail(rows, owner, cap, list, Prune(rows, owner, cap));
    } else {
      assert Prune(rows, owner, cap) == rows;
    }
  }

  lemma DropTail(rows: Table, owner: nat, cap: nat, list: seq<nat>, after: Table)
    requires |list| == |OwnedBy(rows, owner)| > cap && forall id :: id in list <==> id in OwnedBy(rows, owner)
    requires forall i | 0 <= i < |list| :: list[i] in rows && rows[list[i]].owner == owner
    requires forall i, j | 0 <= i < j < |list| :: Newer(rows, list[i], list[j])
    requires after == rows - Elements(list[cap..])
    ensures KeepsNewest(rows, after, owner, cap)
  {
    var first, rest := list[..cap], list[cap..];
    forall id | id in OwnedBy(rows, owner) ensures id in first <==> id !in rest {
      var i :| 0 <= i < |list| && list[i] == id;
      if i < cap { assert first[i] == id; } else { assert rest[i - cap] == id; }
    }
    assert forall id | id in first :: id in list;
    assert forall id | id in rest :: id in list;
    assert OwnedBy(after, owner) == Elements(first);
    SetSize(first);
    forall kept, gone | kept in first && gone in rest ensures Newer(rows, kept, gone) {
      var i :| 0 <= i < |first| && first[i] == kept;
      var j :| 0 <= j < |rest| && rest[j] == gone;
      assert list[i] == kept && list[cap + j] == gone;
    }
    forall kept | kept in after && after[kept].owner == owner ensures kept in first {
      assert kept in OwnedBy(after, owner);
    }
  }

  /**
   After a create, the owner has the newest min(n + 1, cap) rows. A row strictly newer than the
   owner's others is among them.
   */
  lemma CreateKeepsNewest(rows: Table, id: nat, session: Session, cap: nat)
    requires id !in rows && 0 < cap
    requires forall other | other in OwnedBy(rows, session.owner) :: rows[other].lastActive < session.lastActive
    ensures KeepsNewest(rows[id := session], Create(rows, id, session, cap), session.owner, cap)
    ensures |OwnedBy(rows[id := session], session.owner)| == |OwnedBy(rows, session.owner)| + 1
    ensures id in Create(rows, id, session, cap)
  {
    hide Overflow;
    hide KeepsNewest;
    var inserted := rows[id := session];
    assert OwnedBy(inserted, session.owner) == OwnedBy(rows, session.owner) + {id};
    PruneKeepsNewest(inserted, session.owner, cap);
    OverflowIsRank(inserted, session.owner, cap, id);
    assert NewerThan(inserted, session.owner, id) == {};
  }
}
