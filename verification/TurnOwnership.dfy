/**
 Turn ownership of operations through the parent graph: the memoised one-pass projection
 against the plain ancestor walk. The graph may be cyclic.
 */
module TurnOwnership {
  import opened Wrappers

  /** `external` says that the parent scope is "external". */
  datatype Operation = Operation(
    id: string,
    trace: Option<string>,
    span: Option<string>,
    parentSpan: Option<string>,
    turn: Option<string>,
    external: bool)

  /** An OpenTelemetry span address. */
  type Key = (string, string)
  type Index = map<Key, Operation>

  predicate Addressed(o: Operation) {
    o.trace.Some? && o.span.Some?
  }

  function Address(o: Operation): Key
    requires Addressed(o)
  {
    (o.trace.value, o.span.value)
  }

  /** The operations by address; a later operation replaces an earlier one at its address. */
  function ByAddress(operations: seq<Operation>): (index: Index)
    ensures forall k <- index :: index[k] in operations && Addressed(index[k]) && Address(index[k]) == k
    ensures forall o <- operations :: Addressed(o) ==> Address(o) in index
  {
    if operations == [] then map[]
    else
      var last := operations[|operations| - 1];
      var index := ByAddress(operations[..|operations| - 1]);
      if Addressed(last) then index[Address(last) := last] else index
  }

  /** The operation whose turn an operation without one inherits, when there is one. */
  function Parent(index: Index, o: Operation): Option<Operation> {
    if o.turn.Some? || o.external || o.trace.None? || o.parentSpan.None? then None
    else if (o.trace.value, o.parentSpan.value) in index then Some(index[(o.trace.value, o.parentSpan.value)])
    else None
  }

  /** The turn met within `steps` parent links, the operation itself included. */
  function Climb(index: Index, o: Operation, steps: nat): Option<string>
    decreases steps
  {
    if o.turn.Some? then o.turn
    else if Parent(index, o).None? || steps == 0 then None
    else Climb(index, Parent(index, o).value, steps - 1)
  }

  /** `turn` is what the nearest ancestor that carries a turn carries, however far it is. */
  ghost predicate Owns(index: Index, o: Operation, turn: Option<string>) {
    if turn.Some? then exists n: nat :: Climb(index, o, n) == turn else forall n: nat :: Climb(index, o, n).None?
  }

  /** The ancestor walk without a memo: stop at a turn, at the end of the links or at a repetition. */
  function Walk(index: Index, universe: set<string>, o: Operation, seen: set<string>): Option<string>
    requires forall k <- index :: index[k].id in universe
    requires o.id in universe
    decreases universe - seen
  {
    if o.id in seen then None
    else if o.turn.Some? then o.turn
    else match Parent(index, o)
      case None => None
      case Some(p) => Walk(index, universe, p, seen + {o.id})
  }

  predicate UniqueIds(operations: seq<Operation>) {
    forall a <- operations, b <- operations :: a.id == b.id ==> a == b
  }

  predicate UniqueAddresses(operations: seq<Operation>) {
    forall a <- operations, b <- operations :: Addressed(a) && Addressed(b) && Address(a) == Address(b) ==> a == b
  }

  function Ids(operations: seq<Operation>): set<string> {
    set o <- operations :: o.id
  }

  lemma {:induction false} ClimbSteady(index: Index, o: Operation, n: nat, m: nat)
    requires n <= m && Climb(index, o, n).Some?
    ensures Climb(index, o, m) == Climb(index, o, n)
    decreases m
  {
    if o.turn.None? { ClimbSteady(index, Parent(index, o).value, n - 1, m - 1); }
  }

  /** At most one turn is owned. */
  lemma OwnsOne(index: Index, o: Operation, t: Option<string>, u: Option<string>)
    requires Owns(index, o, t) && Owns(index, o, u)
    ensures t == u
  {
    if t.Some? && u.Some? {
      var n: nat :| Climb(index, o, n) == t;
      var m: nat :| Climb(index, o, m) == u;
      ClimbSteady(index, o, if n <= m then n else m, if n <= m then m else n);
    }
  }

  /** An operation without a turn owns what its parent owns. */
  lemma OwnsThroughParent(index: Index, o: Operation, turn: Option<string>)
    requires Parent(index, o).Some? && Owns(index, Parent(index, o).value, turn)
    ensures Owns(index, o, turn)
  {
    var p := Parent(index, o).value;
    if turn.Some? {
      var n: nat :| Climb(index, p, n) == turn;
      assert Climb(index, o, n + 1) == turn;
    } else {
      forall n: nat ensures Climb(index, o, n).None? {
        if n > 0 { assert Climb(index, p, n - 1).None?; }
      }
    }
  }

  lemma OwnsHere(index: Index, o: Operation)
    requires Parent(index, o).None?
    ensures Owns(index, o, o.turn)
  {
    assert Climb(index, o, 0) == o.turn;
  }

  /** `chain` follows parent links and then goes on to `next`. */
  ghost predicate Linked(index: Index, chain: seq<Operation>, next: Operation) {
    && (forall i :: 0 <= i < |chain| - 1 ==> Parent(index, chain[i]) == Some(chain[i + 1]))
    && (chain != [] ==> Parent(index, chain[|chain| - 1]) == Some(next))
  }

  /** What the end of a chain owns, every member owns. */
  lemma {:induction false} ChainOwns(index: Index, chain: seq<Operation>, next: Operation, turn: Option<string>)
    requires Linked(index, chain, next) && Owns(index, next, turn)
    ensures forall o <- chain + [next] :: Owns(index, o, turn)
  {
    hide Owns, Parent;
    if chain != [] {
      var last := chain[|chain| - 1];
      OwnsThroughParent(index, last, turn);
      assert chain[..|chain| - 1] + [last] == chain;
      ChainOwns(index, chain[..|chain| - 1], last, turn);
    }
  }

  lemma {:induction false} CycleClimbs(index: Index, chain: seq<Operation>, next: Operation, o: Operation, n: nat)
    requires Linked(index, chain, next) && next in chain && o in chain
    ensures Climb(index, o, n).None?
    decreases n
  {
    var i :| 0 <= i < |chain| && chain[i] == o;
    assert i < |chain| - 1 ==> Parent(index, chain[i]) == Some(chain[i + 1]);
    if n > 0 {
      CycleClimbs(index, chain, next, if i < |chain| - 1 then chain[i + 1] else next, n - 1);
    }
  }

  /** A chain that runs back into itself owns no turn. */
  lemma CycleOwnsNothing(index: Index, chain: seq<Operation>, next: Operation)
    requires Linked(index, chain, next) && next in chain
    ensures forall o <- chain :: Owns(index, o, None)
  {
    forall o <- chain ensures Owns(index, o, None) {
      forall n: nat ensures Climb(index, o, n).None? { CycleClimbs(index, chain, next, o, n); }
    }
  }

  lemma IdsGrow(chain: seq<Operation>, o: Operation)
    ensures Ids(chain + [o]) == Ids(chain) + {o.id}
  {
    assert forall c <- chain :: c in chain + [o];
    assert (chain + [o])[|chain|] == o;
  }

  lemma LinkNone(index: Index, o: Operation)
    ensures Linked(index, [], o)
  {
  }

  lemma LinkMore(index: Index, chain: seq<Operation>, o: Operation, p: Operation)
    requires Linked(index, chain, o) && Parent(index, o) == Some(p)
    ensures Linked(index, chain + [o], p)
  {
    hide Parent;
  }

  lemma Repetition(operations: seq<Operation>, chain: seq<Operation>, o: Operation)
    requires UniqueIds(operations) && o in operations && forall c <- chain :: c in operations
    requires o.id in Ids(chain)
    ensures o in chain
  {
  }

  lemma {:induction false} WalkFrom(operations: seq<Operation>, chain: seq<Operation>, o: Operation)
    requires UniqueIds(operations) && o in operations && (forall c <- chain :: c in operations)
    requires Linked(ByAddress(operations), chain, o)
    ensures Owns(ByAddress(operations), o, Walk(ByAddress(operations), Ids(operations), o, Ids(chain)))
    decreases Ids(operations) - Ids(chain)
  {
    hide Owns, Parent, ByAddress, UniqueIds, Linked;
    var index := ByAddress(operations);
    if o.id in Ids(chain) {
      Repetition(operations, chain, o);
      CycleOwnsNothing(index, chain, o);
    } else {
      ParentKnown(operations, o);
      match Parent(index, o) {
        case None => OwnsHere(index, o);
        case Some(p) =>
          IdsGrow(chain, o);
          LinkMore(index, chain, o, p);
          WalkFrom(operations, chain + [o], p);
          OwnsThroughParent(index, o, Walk(index, Ids(operations), p, Ids(chain + [o])));
      }
    }
  }

  lemma ParentIs(index: Index, o: Operation)
    ensures o.turn.Some? || o.external || o.trace.None? || o.parentSpan.None? ==> Parent(index, o).None?
    ensures o.turn.None? && !o.external && o.trace.Some? && o.parentSpan.Some? ==>
      var k := (o.trace.value, o.parentSpan.value);
      Parent(index, o) == if k in index then Some(index[k]) else None
  {
  }

  lemma ParentKnown(operations: seq<Operation>, o: Operation)
    ensures var p := Parent(ByAddress(operations), o); p.Some? ==> p.value in operations && o.turn.None?
  {
  }

  /** The plain walk finds the nearest turn, and finds none exactly when there is none. */
  lemma WalkFindsOwner(operations: seq<Operation>, o: Operation)
    requires UniqueIds(operations) && o in operations
    ensures Owns(ByAddress(operations), o, Walk(ByAddress(operations), Ids(operations), o, {}))
  {
    WalkFrom(operations, [], o);
    assert Ids([]) == {};
  }

  /** Every remembered entry is the turn its operation owns. */
  ghost predicate Remembers(operations: seq<Operation>, index: Index, resolved: map<string, Option<string>>) {
    forall o <- operations :: o.id in resolved ==> Owns(index, o, resolved[o.id])
  }

  /** The inner loop: follow one operation's parents until something settles the turn. */
  method Resolve(operations: seq<Operation>, index: Index, resolved: map<string, Option<string>>, operation: Operation)
    returns (chain: seq<Operation>, turn: Option<string>)
    requires index == ByAddress(operations) && UniqueIds(operations) && operation in operations
    requires Remembers(operations, index, resolved)
    ensures operation in chain
    ensures forall o <- chain :: o in operations && Owns(index, o, turn)
  {
    hide Owns, Parent, ByAddress, UniqueIds, Linked;
    LinkNone(index, operation);
    chain, turn := [], None;
    var seen: set<string> := {};
    var current := Some(operation);
    while current.Some? && current.value.id !in seen
      invariant turn.None?
      invariant seen == Ids(chain)
      invariant forall o <- chain :: o in operations
      invariant current.Some? ==> current.value in operations && Linked(index, chain, current.value)
      invariant current.None? ==> forall o <- chain :: Owns(index, o, None)
      invariant if chain == [] then current == Some(operation) else operation in chain
      decreases Ids(operations) - seen
    {
      var o := current.value;
      ghost var before := chain;
      IdsGrow(chain, o);
      seen := seen + {o.id};
      chain := chain + [o];
      if o.id in resolved {
        turn := resolved[o.id];
        ChainOwns(index, before, o, turn);
        return;
      }
      if o.turn.Some? {
        turn := o.turn;
        ParentIs(index, o);
        OwnsHere(index, o);
        ChainOwns(index, before, o, turn);
        return;
      }
      if o.external || o.trace.None? || o.parentSpan.None? {
        ParentIs(index, o);
        OwnsHere(index, o);
        ChainOwns(index, before, o, None);
        return;
      }
      ParentIs(index, o);
      if (o.trace.value, o.parentSpan.value) in index {
        current := Some(index[(o.trace.value, o.parentSpan.value)]);
        ParentKnown(operations, o);
        LinkMore(index, before, o, current.value);
      } else {
        current := None;
        OwnsHere(index, o);
        ChainOwns(index, before, o, None);
      }
    }
    if current.Some? {
      Repetition(operations, chain, current.value);
      CycleOwnsNothing(index, chain, current.value);
    }
  }

  /** The remembered entries once a resolved chain is added. */
  lemma RememberChain(operations: seq<Operation>, index: Index, resolved: map<string, Option<string>>,
                      chain: seq<Operation>, turn: Option<string>)
    requires UniqueIds(operations) && Remembers(operations, index, resolved)
    requires forall o <- chain :: o in operations && Owns(index, o, turn)
    ensures Remembers(operations, index, resolved + map k <- Ids(chain) :: turn)
  {
    hide Owns;
  }

  /** `resolved` with `turn` stored for the first `n` members of the chain. */
  ghost function Stored(resolved: map<string, Option<string>>, chain: seq<Operation>, turn: Option<string>)
    : map<string, Option<string>>
  {
    resolved + map k <- Ids(chain) :: turn
  }

  lemma StoreOne(resolved: map<string, Option<string>>, chain: seq<Operation>, n: nat, turn: Option<string>)
    requires n < |chain|
    ensures Stored(resolved, chain[..n], turn)[chain[n].id := turn] == Stored(resolved, chain[..n + 1], turn)
  {
    assert chain[..n + 1] == chain[..n] + [chain[n]];
    IdsGrow(chain[..n], chain[n]);
  }

  /** The memoised projection agrees with the plain walk on every operation, and holds nothing else. */
  method OperationTurnIds(operations: seq<Operation>) returns (resolved: map<string, Option<string>>)
    requires UniqueIds(operations)
    ensures resolved.Keys == Ids(operations)
    ensures forall o <- operations ::
      resolved[o.id] == Walk(ByAddress(operations), Ids(operations), o, {})
  {
    hide Owns, ByAddress, UniqueIds;
    var index := ByAddress(operations);
    resolved := map[];
    for i := 0 to |operations|
      invariant Remembers(operations, index, resolved)
      invariant resolved.Keys <= Ids(operations)
      invariant Ids(operations[..i]) <= resolved.Keys
    {
      if operations[i].id !in resolved {
        var chain, turn := Resolve(operations, index, resolved, operations[i]);
        ghost var before := resolved;
        for j := 0 to |chain|
          invariant resolved == Stored(before, chain[..j], turn)
        {
          StoreOne(before, chain, j, turn);
          resolved := resolved[chain[j].id := turn];
        }
        assert chain[..|chain|] == chain;
        RememberChain(operations, index, before, chain, turn);
      }
      assert operations[..i + 1] == operations[..i] + [operations[i]];
      IdsGrow(operations[..i], operations[i]);
    }
    assert operations[..|operations|] == operations;
    forall o <- operations ensures o.id in resolved && resolved[o.id] == Walk(index, Ids(operations), o, {}) {
      WalkFindsOwner(operations, o);
      OwnsOne(index, o, resolved[o.id], Walk(index, Ids(operations), o, {}));
    }
  }

  /** With unique addresses the answer does not depend on the order of the operations. */
  lemma OrderDoesNotMatter(operations: seq<Operation>, reordered: seq<Operation>, o: Operation)
    requires multiset(operations) == multiset(reordered)
    requires UniqueIds(operations) && UniqueAddresses(operations) && o in operations && o in reordered
    ensures Walk(ByAddress(operations), Ids(operations), o, {})
         == Walk(ByAddress(reordered), Ids(reordered), o, {})
  {
    assert forall p :: p in operations <==> p in multiset(operations);
    assert forall p :: p in reordered <==> p in multiset(reordered);
    assert ByAddress(operations) == ByAddress(reordered);
    assert Ids(operations) == Ids(reordered);
  }

  // ---- the owner, read off the operations ---------------------------------------------------

  /** The last operation at a span address, by its position. */
  predicate LastAt(operations: seq<Operation>, j: nat, trace: string, span: string) {
    && j < |operations| && operations[j].trace == Some(trace) && operations[j].span == Some(span)
    && forall k :: j < k < |operations| ==>
         !(operations[k].trace == Some(trace) && operations[k].span == Some(span))
  }

  /** An operation at another address does not change who is last at this one; one at it is the last. */
  lemma LastOfMore(operations: seq<Operation>, trace: string, span: string)
    requires operations != []
    ensures var n := |operations| - 1;
      var last := operations[n];
      if last.trace == Some(trace) && last.span == Some(span) then LastAt(operations, n, trace, span)
      else forall j: nat :: LastAt(operations, j, trace, span) <==> LastAt(operations[..n], j, trace, span)
  {
    var n := |operations| - 1;
    var front := operations[..n];
    assert forall k :: 0 <= k < n ==> front[k] == operations[k];
  }

  lemma {:induction false} AddressedLast(operations: seq<Operation>, trace: string, span: string)
    ensures if (trace, span) in ByAddress(operations)
            then exists j: nat :: LastAt(operations, j, trace, span)
                   && operations[j] == ByAddress(operations)[(trace, span)]
            else forall j: nat :: !LastAt(operations, j, trace, span)
  {
    if operations != [] {
      var n := |operations| - 1;
      AddressedLast(operations[..n], trace, span);
      LastOfMore(operations, trace, span);
      LastBounds(operations[..n], trace, span);
      hide LastAt;
      var last := operations[n];
      if last.trace == Some(trace) && last.span == Some(span) {
        assert LastAt(operations, n, trace, span) && operations[n] == ByAddress(operations)[(trace, span)];
      } else if (trace, span) in ByAddress(operations[..n]) {
        var j: nat :| LastAt(operations[..n], j, trace, span)
            && operations[..n][j] == ByAddress(operations[..n])[(trace, span)];
        assert LastAt(operations, j, trace, span) && operations[j] == operations[..n][j];
      }
    }
  }

  lemma LastBounds(operations: seq<Operation>, trace: string, span: string)
    ensures forall j: nat :: LastAt(operations, j, trace, span) ==> j < |operations|
  {
  }

  /** The operation inherits the turn of `p`: it has none, it is not external, and `p` is at its parent's address. */
  predicate Inherits(operations: seq<Operation>, o: Operation, j: nat) {
    && o.turn.None? && !o.external && o.trace.Some? && o.parentSpan.Some?
    && LastAt(operations, j, o.trace.value, o.parentSpan.value)
  }

  lemma ParentInherits(operations: seq<Operation>, o: Operation)
    ensures match Parent(ByAddress(operations), o)
      case Some(p) => exists j: nat :: Inherits(operations, o, j) && operations[j] == p
      case None => forall j: nat :: !Inherits(operations, o, j)
    ensures forall i: nat, j: nat :: Inherits(operations, o, i) && Inherits(operations, o, j) ==> i == j
  {
    if o.turn.None? && !o.external && o.trace.Some? && o.parentSpan.Some? {
      AddressedLast(operations, o.trace.value, o.parentSpan.value);
      var k := (o.trace.value, o.parentSpan.value);
      if k in ByAddress(operations) {
        var j: nat :| LastAt(operations, j, k.0, k.1) && operations[j] == ByAddress(operations)[k];
        assert Inherits(operations, o, j);
      }
    }
  }

  /** A path of parent links, by position, from the operation to one that carries the turn. */
  ghost predicate Path(operations: seq<Operation>, o: Operation, links: seq<nat>, turn: string)
    decreases |links|
  {
    if links == [] then o.turn == Some(turn)
    else
      Inherits(operations, o, links[0]) && links[0] < |operations|
      && Path(operations, operations[links[0]], links[1..], turn)
  }

  lemma {:induction false} ClimbPath(operations: seq<Operation>, o: Operation, n: nat, turn: string)
    requires Climb(ByAddress(operations), o, n) == Some(turn)
    ensures exists links :: Path(operations, o, links, turn)
    decreases n
  {
    hide ByAddress, Inherits, Parent;
    if o.turn.Some? {
      assert Path(operations, o, [], turn);
    } else {
      ParentInherits(operations, o);
      InheritsBound(operations, o);
      var p := Parent(ByAddress(operations), o).value;
      var j: nat :| Inherits(operations, o, j) && operations[j] == p;
      ClimbPath(operations, p, n - 1, turn);
      var links :| Path(operations, p, links, turn);
      assert ([j] + links)[1..] == links;
      assert Path(operations, o, [j] + links, turn);
    }
  }

  lemma InheritsBound(operations: seq<Operation>, o: Operation)
    ensures forall j: nat :: Inherits(operations, o, j) ==> j < |operations| && o.turn.None?
  {
  }

  lemma {:induction false} PathClimbs(operations: seq<Operation>, o: Operation, links: seq<nat>, turn: string)
    requires Path(operations, o, links, turn)
    ensures Climb(ByAddress(operations), o, |links|) == Some(turn)
    decreases |links|
  {
    hide ByAddress, Inherits, Parent;
    if links != [] {
      ParentInherits(operations, o);
      InheritsBound(operations, o);
      PathClimbs(operations, operations[links[0]], links[1..], turn);
    }
  }

  /**
   The turn of an operation, from the operations alone: it is `turn` exactly when parent links lead to an
   operation that carries it, through operations that carry none, and it has none exactly when no links do.
   */
  lemma OwnedByPath(operations: seq<Operation>, o: Operation, turn: string)
    requires UniqueIds(operations) && o in operations
    ensures Walk(ByAddress(operations), Ids(operations), o, {}) == Some(turn) <==>
      exists links :: Path(operations, o, links, turn)
  {
    hide ByAddress, Path, Walk, UniqueIds;
    WalkFindsOwner(operations, o);
    var index := ByAddress(operations);
    var found := Walk(index, Ids(operations), o, {});
    if found == Some(turn) {
      var n: nat :| Climb(index, o, n) == Some(turn);
      ClimbPath(operations, o, n, turn);
    }
    if links :| Path(operations, o, links, turn) {
      PathClimbs(operations, o, links, turn);
      assert Owns(index, o, Some(turn));
      OwnsOne(index, o, found, Some(turn));
    }
  }
}
