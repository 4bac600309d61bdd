/**
 Books on a session table: what was created, pruned and revoked (app/services/session_service.py:15-37,
 49-66 and 78-92).
 */
module SessionLedger {
  import opened Prelude
  import opened Sessions

  /** The table with the books kept on it: everything ever created, pruned and revoked. */
  datatype Ledger = Ledger(rows: Table, created: Table, pruned: set<nat>, revoked: set<nat>, nextId: nat, clock: Time)

  const EMPTY: Ledger := Ledger(map[], map[], {}, {}, 0, 0)

  /** Live, pruned and revoked sessions partition the created ones. */
  ghost predicate Partitioned(l: Ledger) {
    && l.created.Keys == l.rows.Keys + l.pruned + l.revoked
    && l.rows.Keys !! l.pruned && l.rows.Keys !! l.revoked && l.pruned !! l.revoked
    && forall id | id in l.rows :: l.rows[id] == l.created[id]
  }

  /** No two sessions were opened at one instant. */
  ghost predicate Dated(l: Ledger) {
    && (forall id | id in l.created :: id < l.nextId && l.created[id].lastActive <= l.clock)
    && (forall x, y | x in l.created && y in l.created && x != y ::
          l.created[x].lastActive != l.created[y].lastActive)
  }

  ghost predicate WithinCap(cap: nat, rows: Table) {
    forall owner: nat :: |OwnedBy(rows, owner)| <= cap
  }

  ghost predicate PrunedOlder(l: Ledger)
    requires Partitioned(l)
  {
    forall gone, live | gone in l.pruned && live in l.rows && l.created[gone].owner == l.rows[live].owner ::
      l.created[gone].lastActive < l.rows[live].lastActive
  }

  ghost predicate Balanced(cap: nat, l: Ledger) {
    Partitioned(l) && Dated(l) && WithinCap(cap, l.rows) && PrunedOlder(l)
  }

  lemma WithinCapCreate(rows: Table, after: Table, id: nat, s: Session, cap: nat)
    requires WithinCap(cap, rows) && id !in rows
    requires KeepsNewest(rows[id := s], after, s.owner, cap)
    ensures WithinCap(cap, after)
  {
    forall o: nat ensures |OwnedBy(after, o)| <= cap {
      if o != s.owner {
        assert OwnedBy(after, o) == OwnedBy(rows, o);
      }
    }
  }

  lemma KeptIsNewer(rows: Table, after: Table, owner: nat, cap: nat, kept: nat, gone: nat)
    requires KeepsNewest(rows, after, owner, cap)
    requires kept in after && after[kept].owner == owner && gone in rows && gone !in after
    requires kept in rows ==> rows[kept].lastActive != rows[gone].lastActive
    ensures kept in rows && after[kept] == rows[kept] && rows[gone].lastActive < rows[kept].lastActive
  {
  }

  lemma PrunedOlderCreate(l: Ledger, l': Ledger, id: nat, s: Session, cap: nat)
    requires Partitioned(l) && Dated(l) && PrunedOlder(l) && Partitioned(l') && Dated(l')
    requires id !in l.created && l.clock < s.lastActive && l'.created == l.created[id := s]
    requires KeepsNewest(l.rows[id := s], l'.rows, s.owner, cap) && id in l'.rows
    requires l'.pruned == l.pruned + (l.rows.Keys - l'.rows.Keys)
    ensures PrunedOlder(l')
  {
    var inserted := l.rows[id := s];
    KeepsNewestFrame(inserted, l'.rows, s.owner, cap);
    hide KeepsNewest;
    forall gone, live | gone in l'.pruned && live in l'.rows && l'.created[gone].owner == l'.rows[live].owner
      ensures l'.created[gone].lastActive < l'.rows[live].lastActive
    {
      if gone !in l.pruned {
        assert gone in l'.created && live in l'.created && gone != live;
        KeptIsNewer(inserted, l'.rows, s.owner, cap, live, gone);
      } else if live != id {
        assert live in l.rows;
      }
    }
  }

  /** A new session is entered, and what it pushed out of the newest `cap` of its owner is pruned. */
  lemma OpenBalanced(cap: Positive, l: Ledger, l': Ledger, id: nat, s: Session)
    requires Balanced(cap, l) && l.nextId <= id < l'.nextId && l.clock < s.lastActive == l'.clock
    requires KeepsNewest(l.rows[id := s], l'.rows, s.owner, cap) && id in l'.rows
    requires l'.created == l.created[id := s] && l'.revoked == l.revoked
    requires l'.pruned == l.pruned + (l.rows.Keys - l'.rows.Keys)
    ensures Balanced(cap, l')
  {
    hide OwnedBy;
    hide WithinCap;
    hide KeepsNewest;
    hide PrunedOlder;
    WithinCapCreate(l.rows, l'.rows, id, s, cap);
    KeepsNewestFrame(l.rows[id := s], l'.rows, s.owner, cap);
    OpenPartitioned(l, l', id, s);
    PrunedOlderCreate(l, l', id, s, cap);
  }

  lemma OpenPartitioned(l: Ledger, l': Ledger, id: nat, s: Session)
    requires Partitioned(l) && Dated(l) && l.nextId <= id < l'.nextId && l.clock < s.lastActive == l'.clock
    requires id in l'.rows && forall x | x in l'.rows :: x in l.rows[id := s] && l'.rows[x] == l.rows[id := s][x]
    requires l'.created == l.created[id := s] && l'.revoked == l.revoked
    requires l'.pruned == l.pruned + (l.rows.Keys - l'.rows.Keys)
    ensures Partitioned(l') && Dated(l')
  {
  }

  lemma KeepsNewestFrame(rows: Table, after: Table, owner: nat, cap: nat)
    requires KeepsNewest(rows, after, owner, cap)
    ensures forall id | id in after :: id in rows && after[id] == rows[id]
    ensures forall id | id in rows && id !in after :: rows[id].owner == owner
  {
  }

  lemma RevokeBalanced(cap: Positive, l: Ledger, l': Ledger, id: nat)
    requires Balanced(cap, l) && id in l.rows && l'.rows == l.rows - {id} && l'.revoked == l.revoked + {id}
    requires l'.created == l.created && l'.pruned == l.pruned && l.nextId <= l'.nextId && l.clock <= l'.clock
    ensures Balanced(cap, l')
  {
    hide OwnedBy;
    WithinCapDelete(cap, l.rows, id);
  }

  lemma StillBalanced(cap: Positive, l: Ledger, l': Ledger)
    requires Balanced(cap, l) && l' == l.(nextId := l'.nextId, clock := l'.clock)
    requires l.nextId <= l'.nextId && l.clock <= l'.clock
    ensures Balanced(cap, l')
  {
  }

  lemma WithinCapDelete(cap: nat, rows: Table, id: nat)
    requires WithinCap(cap, rows)
    ensures WithinCap(cap, rows - {id})
  {
    forall o: nat ensures |OwnedBy(rows - {id}, o)| <= cap {
      OwnedSubset(rows - {id}, rows, o);
    }
  }

  lemma OwnedSubset(small: Table, big: Table, owner: nat)
    requires forall id | id in small :: id in big && small[id] == big[id]
    ensures |OwnedBy(small, owner)| <= |OwnedBy(big, owner)|
  {
    SubsetSize(OwnedBy(small, owner), OwnedBy(big, owner));
  }

  lemma SubsetSize(x: set<nat>, y: set<nat>)
    requires x <= y
    ensures |x| <= |y|
  {
    assert y == x + (y - x);
  }

  lemma EmptyBalanced(cap: Positive)
    ensures Balanced(cap, EMPTY)
  {
    forall owner: nat ensures |OwnedBy(EMPTY.rows, owner)| <= cap {
      assert OwnedBy(EMPTY.rows, owner) == {};
    }
  }
}
