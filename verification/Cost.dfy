/**
 * Cost accounting over forests of forks. A fork freezes what its origin had spent up to the fork
 * point; the family cost walks the whole ancestor chain.
 */
module Cost {
  import opened Core

  type SessionId = string

  datatype UsageRow = UsageRow(at: nat, micros: int)

  /** `born` is the creation order of the session rows; it orders origins before their forks. */
  datatype Session = Session(origin: Option<SessionId>, inherited: int, head: nat,
                             usage: seq<UsageRow>, born: nat)

  type Db = map<SessionId, Session>

  datatype Op =
    | Create(id: SessionId)
    | AppendUsage(id: SessionId, micros: nat)
    | AppendOther(id: SessionId)
    | Fork(from: SessionId, id: SessionId, originSeq: nat, copied: nat)

  function Sum(rows: seq<UsageRow>): int {
    if rows == [] then 0 else Sum(rows[..|rows| - 1]) + rows[|rows| - 1].micros
  }

  /** What the rows up to `cut` cost. */
  function PrefixSum(rows: seq<UsageRow>, cut: nat): int {
    if rows == [] then 0
    else
      var last := rows[|rows| - 1];
      PrefixSum(rows[..|rows| - 1], cut) + if last.at <= cut then last.micros else 0
  }

  /** One store operation. An operation on a missing session, or a second row for an id, fails. */
  function Apply(db: Db, op: Op): Db {
    match op
    case Create(id) =>
      if id in db then db else db[id := Session(None, 0, 0, [], |db|)]
    case AppendUsage(id, micros) =>
      if id !in db then db
      else
        var s := db[id];
        db[id := s.(head := s.head + 1, usage := s.usage + [UsageRow(s.head + 1, micros)])]
    case AppendOther(id) =>
      if id !in db then db else db[id := db[id].(head := db[id].head + 1)]
    case Fork(from, id, originSeq, copied) =>
      if from !in db || id in db then db
      else db[id := Session(Some(from), PrefixSum(db[from].usage, originSeq), copied, [], |db|)]
  }

  function Run(db: Db, ops: seq<Op>): Db
    decreases |ops|
  {
    if ops == [] then db else Run(Apply(db, ops[0]), ops[1..])
  }

  function Marginal(db: Db, id: SessionId): int
    requires id in db
  {
    Sum(db[id].usage)
  }

  function Effective(db: Db, id: SessionId): int
    requires id in db
  {
    Marginal(db, id) + db[id].inherited
  }

  ghost predicate RowsOk(s: Session) {
    && (forall i :: 0 <= i < |s.usage| ==> s.usage[i].micros >= 0 && s.usage[i].at <= s.head)
  }

  /** The origin exists, is older than its fork, and has spent at least what the fork inherited. */
  ghost predicate SessionOk(db: Db, id: SessionId)
    requires id in db
  {
    && RowsOk(db[id]) && db[id].born < |db| && db[id].inherited >= 0
    && match db[id].origin
       case None => db[id].inherited == 0
       case Some(p) => p in db && db[p].born < db[id].born && db[id].inherited <= Marginal(db, p)
  }

  ghost predicate Inv(db: Db) {
    forall id {:trigger SessionOk(db, id)} :: id in db ==> SessionOk(db, id)
  }

  /** The recursion of the rollup. Its termination is the acyclicity in `Inv`. */
  ghost function FamilyCost(db: Db, id: SessionId): int
    requires Inv(db) && id in db
    decreases db[id].born
  {
    assert SessionOk(db, id);
    var own := Marginal(db, id);
    match db[id].origin
    case Some(parent) => own + FamilyCost(db, parent)
    case None => own
  }

  /** The session followed by its origins, oldest last. */
  ghost function Chain(db: Db, id: SessionId): seq<SessionId>
    requires Inv(db) && id in db
    decreases db[id].born
  {
    assert SessionOk(db, id);
    match db[id].origin
    case Some(parent) => [id] + Chain(db, parent)
    case None => [id]
  }

  ghost function ChainCost(db: Db, ids: seq<SessionId>): int {
    if ids == [] then 0
    else (if ids[0] in db then Marginal(db, ids[0]) else 0) + ChainCost(db, ids[1..])
  }

  lemma {:induction false} PrefixBounds(rows: seq<UsageRow>, cut: nat)
    requires forall i :: 0 <= i < |rows| ==> rows[i].micros >= 0
    ensures 0 <= PrefixSum(rows, cut) <= Sum(rows)
  {
    if rows != [] {
      PrefixBounds(rows[..|rows| - 1], cut);
    }
  }

  lemma SumSnoc(rows: seq<UsageRow>, r: UsageRow, cut: nat)
    ensures Sum(rows + [r]) == Sum(rows) + r.micros
    ensures cut < r.at ==> PrefixSum(rows + [r], cut) == PrefixSum(rows, cut)
  {
    assert (rows + [r])[..|rows|] == rows;
  }

  lemma UpdateKeepsInv(db: Db, id: SessionId, s: Session)
    requires Inv(db) && id in db && RowsOk(s)
    requires s.origin == db[id].origin && s.inherited == db[id].inherited && s.born == db[id].born
    requires Sum(s.usage) >= Sum(db[id].usage)
    ensures Inv(db[id := s])
  {
    var db' := db[id := s];
    assert db'.Keys == db.Keys;
    assert |db'.Keys| == |db'| && |db.Keys| == |db|;
    forall x | x in db' ensures SessionOk(db', x) {
      assert SessionOk(db, x);
    }
  }

  lemma InsertKeepsInv(db: Db, id: SessionId, s: Session)
    requires Inv(db) && id !in db && RowsOk(s) && s.born == |db| && s.inherited >= 0
    requires s.origin.None? ==> s.inherited == 0
    requires s.origin.Some? ==> s.origin.value in db && s.inherited <= Marginal(db, s.origin.value)
    ensures Inv(db[id := s])
  {
    var db' := db[id := s];
    assert db'.Keys == db.Keys + {id};
    assert |db'.Keys| == |db'| && |db.Keys| == |db|;
    forall x | x in db' ensures SessionOk(db', x) {
      if x != id {
        assert SessionOk(db, x);
      } else if s.origin.Some? {
        assert SessionOk(db, s.origin.value);
      }
    }
  }

  /** Every operation keeps the forest well formed. */
  lemma ApplyKeepsInv(db: Db, op: Op)
    requires Inv(db)
    ensures Inv(Apply(db, op))
    ensures forall id :: id in db ==> id in Apply(db, op)
  {
    match op {
      case AppendUsage(id, micros) =>
        if id in db {
          assert SessionOk(db, id);
          var row := UsageRow(db[id].head + 1, micros);
          SumSnoc(db[id].usage, row, 0);
          UpdateKeepsInv(db, id, db[id].(head := db[id].head + 1, usage := db[id].usage + [row]));
        }
      case AppendOther(id) =>
        if id in db {
          assert SessionOk(db, id);
          UpdateKeepsInv(db, id, db[id].(head := db[id].head + 1));
        }
      case Create(id) =>
        if id !in db {
          InsertKeepsInv(db, id, Session(None, 0, 0, [], |db|));
        }
      case Fork(from, id, originSeq, copied) =>
        if from in db && id !in db {
          assert SessionOk(db, from);
          PrefixBounds(db[from].usage, originSeq);
          InsertKeepsInv(db, id, Session(Some(from), PrefixSum(db[from].usage, originSeq), copied, [], |db|));
        }
    }
  }

  /** In every run from an empty store the family recursion is well founded. */
  lemma {:induction false} RunKeepsInv(db: Db, ops: seq<Op>)
    requires Inv(db)
    ensures Inv(Run(db, ops))
    ensures forall id :: id in db ==> id in Run(db, ops)
    decreases |ops|
  {
    if ops != [] {
      ApplyKeepsInv(db, ops[0]);
      RunKeepsInv(Apply(db, ops[0]), ops[1..]);
    }
  }

  /** The rollup is the sum over the ancestor chain, which visits no session twice. */
  lemma {:induction false} FamilyIsChainSum(db: Db, id: SessionId)
    requires Inv(db) && id in db
    ensures FamilyCost(db, id) == ChainCost(db, Chain(db, id))
    ensures forall i, j :: 0 <= i < j < |Chain(db, id)| ==> Chain(db, id)[i] != Chain(db, id)[j]
    ensures forall i :: 0 <= i < |Chain(db, id)| ==>
              Chain(db, id)[i] in db && db[Chain(db, id)[i]].born <= db[id].born
    ensures FamilyCost(db, id) >= Marginal(db, id) >= 0
    decreases db[id].born
  {
    assert SessionOk(db, id);
    PrefixBounds(db[id].usage, 0);
    if db[id].origin.Some? {
      var parent := db[id].origin.value;
      FamilyIsChainSum(db, parent);
      assert Chain(db, id)[1..] == Chain(db, parent);
    }
  }

  /** What a session is charged with never exceeds what its family spent. */
  lemma EffectiveWithinFamily(db: Db, id: SessionId)
    requires Inv(db) && id in db
    ensures Marginal(db, id) <= Effective(db, id) <= FamilyCost(db, id)
  {
    assert SessionOk(db, id);
    if db[id].origin.Some? {
      FamilyIsChainSum(db, db[id].origin.value);
    }
  }

  lemma {:induction false} RunKeepsRow(db: Db, ops: seq<Op>, id: SessionId, cut: nat)
    requires id in db
    ensures id in Run(db, ops)
    ensures Run(db, ops)[id].inherited == db[id].inherited
    ensures Run(db, ops)[id].origin == db[id].origin
    ensures cut <= db[id].head ==> PrefixSum(Run(db, ops)[id].usage, cut) == PrefixSum(db[id].usage, cut)
    ensures db[id].head <= Run(db, ops)[id].head
    decreases |ops|
  {
    if ops != [] {
      var op := ops[0];
      if op.AppendUsage? && op.id == id {
        SumSnoc(db[id].usage, UsageRow(db[id].head + 1, op.micros), cut);
      }
      RunKeepsRow(Apply(db, op), ops[1..], id, cut);
    }
  }

  /**
   * After a fork to a fresh id, whatever runs next: the fork stays charged with the origin's
   * prefix sum at the fork, and that prefix is still what the origin's rows add up to.
   */
  lemma ForkCostFrozen(db: Db, from: SessionId, id: SessionId, originSeq: nat, copied: nat, ops: seq<Op>)
    requires from in db && id !in db
    ensures var after := Run(Apply(db, Fork(from, id, originSeq, copied)), ops);
      && id in after && from in after
      && Effective(after, id) - Marginal(after, id) == PrefixSum(db[from].usage, originSeq)
      && (originSeq <= db[from].head ==>
            Effective(after, id) - Marginal(after, id) == PrefixSum(after[from].usage, originSeq))
  {
    var forked := Apply(db, Fork(from, id, originSeq, copied));
    RunKeepsRow(forked, ops, id, originSeq);
    RunKeepsRow(forked, ops, from, originSeq);
  }

  /** The fork's inherited charge is still what the origin's rows up to the fork point add up to. */
  ghost predicate Tracks(after: Db, from: SessionId, id: SessionId, originSeq: nat) {
    && id in after && from in after
    && Effective(after, id) - Marginal(after, id) == PrefixSum(after[from].usage, originSeq)
  }

  /**
   * Forking past the head is accepted: a later record of the origin can then fall inside the
   * nominal prefix while the fork keeps the smaller, frozen sum.
   */
  lemma ForkPastHeadDrifts(db: Db, from: SessionId, id: SessionId, originSeq: nat, copied: nat, micros: nat)
    requires Inv(db) && from in db && id !in db && originSeq > db[from].head && micros > 0
    ensures var after := Run(Apply(db, Fork(from, id, originSeq, copied)), [AppendUsage(from, micros)]);
      && id in after && from in after
      && Effective(after, id) - Marginal(after, id) == PrefixSum(after[from].usage, originSeq) - micros
  {
    var forked := Apply(db, Fork(from, id, originSeq, copied));
    var ops := [AppendUsage(from, micros)];
    assert ops[1..] == [];
    assert Run(forked, ops) == Apply(forked, ops[0]);
    var row := UsageRow(db[from].head + 1, micros);
    assert (db[from].usage + [row])[..|db[from].usage|] == db[from].usage;
  }

  /** The two agree in every continuation exactly when the fork point was not past the origin's head. */
  lemma ForkTracksOriginExactly(db: Db, from: SessionId, id: SessionId, originSeq: nat, copied: nat)
    requires Inv(db) && from in db && id !in db
    ensures originSeq <= db[from].head <==>
            forall ops: seq<Op> :: Tracks(Run(Apply(db, Fork(from, id, originSeq, copied)), ops), from, id, originSeq)
  {
    var forked := Apply(db, Fork(from, id, originSeq, copied));
    if originSeq <= db[from].head {
      forall ops: seq<Op> ensures Tracks(Run(forked, ops), from, id, originSeq) {
        ForkCostFrozen(db, from, id, originSeq, copied, ops);
      }
    } else {
      ForkPastHeadDrifts(db, from, id, originSeq, copied, 1);
      assert !Tracks(Run(forked, [AppendUsage(from, 1)]), from, id, originSeq);
    }
  }
}
