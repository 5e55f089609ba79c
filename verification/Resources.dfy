/** Resource leases: exclusive keys, and keys whose requests declare amounts against a capacity. */
module Resources {
  datatype Resource = Resource(name: string)
  datatype JobId = JobId(name: string)
  datatype Dim = Dim(name: string)

  type Amounts = map<Dim, real>

  datatype Lease = Lease(resource: Resource, job: JobId, owner: string, expires: real, requested: Amounts, capacity: Amounts)

  datatype Grant = Granted | Refused | Duplicate

  datatype Op =
    | Reserve(resource: Resource, job: JobId, owner: string, now: real, ttl: real, requested: Amounts, capacity: Amounts)
    | Renew(resource: Resource, job: JobId, owner: string, now: real, ttl: real)
    | Release(resource: Resource, job: JobId)
    | Expire(now: real)

  function Amount(a: Amounts, d: Dim): (n: real) {
    if d in a then a[d] else 0.0
  }

  function Used(ls: seq<Lease>, resource: Resource, d: Dim): (n: real) {
    if ls == [] then 0.0
    else Used(ls[..|ls| - 1], resource, d) + if ls[|ls| - 1].resource == resource then Amount(ls[|ls| - 1].requested, d) else 0.0
  }

  function Holders(ls: seq<Lease>, resource: Resource): (n: nat) {
    if ls == [] then 0 else Holders(ls[..|ls| - 1], resource) + if ls[|ls| - 1].resource == resource then 1 else 0
  }

  /** `DELETE`: keeps the leases that do not match. */
  function Without(ls: seq<Lease>, op: Op): (r: seq<Lease>)
    ensures |r| <= |ls|
  {
    if ls == [] then []
    else Without(ls[..|ls| - 1], op) + if Deletes(op, ls[|ls| - 1]) then [] else [ls[|ls| - 1]]
  }

  predicate Deletes(op: Op, l: Lease) {
    match op
    case Reserve(_, _, _, now, _, _, _) => l.expires < now
    case Expire(now) => l.expires < now
    case Release(resource, job) => l.resource == resource && l.job == job
    case Renew(_, _, _, _, _) => false
  }

  function Renewed(ls: seq<Lease>, op: Op): (r: seq<Lease>)
    requires op.Renew?
    ensures |r| == |ls|
  {
    if ls == [] then []
    else
      var l := ls[|ls| - 1];
      Renewed(ls[..|ls| - 1], op) +
      [if l.resource == op.resource && l.job == op.job && l.owner == op.owner then l.(expires := op.now + op.ttl) else l]
  }

  predicate Held(ls: seq<Lease>, resource: Resource, job: JobId) {
    exists i :: 0 <= i < |ls| && ls[i].resource == resource && ls[i].job == job
  }

  predicate Exceeds(ls: seq<Lease>, resource: Resource, requested: Amounts, capacity: Amounts) {
    exists d :: d in requested && Used(ls, resource, d) + requested[d] > Amount(capacity, d)
  }

  predicate Declares(requested: Amounts, capacity: Amounts) { requested != map[] && capacity != map[] }

  /** The decision of `reserve_resource` over the leases that have not lapsed. */
  function Decide(ls: seq<Lease>, op: Op): (g: Grant)
    requires op.Reserve?
  {
    if Declares(op.requested, op.capacity) && Exceeds(ls, op.resource, op.requested, op.capacity) then Refused
    else if !Declares(op.requested, op.capacity) && Holders(ls, op.resource) > 0 then Refused
    else if Held(ls, op.resource, op.job) then Duplicate
    else Granted
  }

  function LeaseFor(op: Op): (l: Lease)
    requires op.Reserve?
  {
    Lease(op.resource, op.job, op.owner, op.now + op.ttl, op.requested, op.capacity)
  }

  function Step(ls: seq<Lease>, op: Op): (r: seq<Lease>) {
    match op
    case Reserve(_, _, _, _, _, _, _) =>
      var kept := Without(ls, op);
      (match Decide(kept, op)
       case Granted => kept + [LeaseFor(op)]
       case Refused => kept
       case Duplicate => ls)
    case Renew(_, _, _, _, _) => Renewed(ls, op)
    case Release(_, _) => Without(ls, op)
    case Expire(_) => Without(ls, op)
  }

  function Exec(ops: seq<Op>): (ls: seq<Lease>) {
    if ops == [] then [] else Step(Exec(ops[..|ops| - 1]), ops[|ops| - 1])
  }

  class Store {
    var leases: seq<Lease>

    constructor ()
      ensures leases == []
    {
      leases := [];
    }

    /** Sums what the live leases of the resource use, dimension by dimension. */
    method Fits(kept: seq<Lease>, op: Op) returns (fits: bool)
      requires op.Reserve?
      ensures fits <==> !Exceeds(kept, op.resource, op.requested, op.capacity)
    {
      var left := op.requested.Keys;
      fits := true;
      while left != {}
        invariant left <= op.requested.Keys
        invariant fits <==> forall d :: d in op.requested && d !in left ==>
                  Used(kept, op.resource, d) + op.requested[d] <= Amount(op.capacity, d)
        decreases left
      {
        var d :| d in left;
        var used := 0.0;
        for i := 0 to |kept|
          invariant used == Used(kept[..i], op.resource, d)
        {
          assert kept[..i + 1][..i] == kept[..i];
          if kept[i].resource == op.resource {
            used := used + Amount(kept[i].requested, d);
          }
        }
        assert kept[..|kept|] == kept;
        fits := fits && used + op.requested[d] <= Amount(op.capacity, d);
        left := left - {d};
      }
    }

    method ReserveResource(op: Op) returns (g: Grant)
      requires op.Reserve?
      modifies this
      ensures leases == Step(old(leases), op) && g == Decide(Without(old(leases), op), op)
      ensures op.requested == map[] || op.capacity == map[] ==>
                (g.Refused? <==> Holders(Without(old(leases), op), op.resource) > 0)
      ensures op.requested != map[] && op.capacity != map[] ==>
                (g.Refused? <==> Exceeds(Without(old(leases), op), op.resource, op.requested, op.capacity))
      ensures g.Duplicate? ==> leases == old(leases) && Held(Without(leases, op), op.resource, op.job)
      ensures g.Granted? ==> !Held(Without(old(leases), op), op.resource, op.job)
    {
      var kept := Without(leases, op);
      if Declares(op.requested, op.capacity) {
        var fits := Fits(kept, op);
        if !fits {
          leases := kept;
          return Refused;
        }
      } else if Holders(kept, op.resource) > 0 {
        leases := kept;
        return Refused;
      }
      if Held(kept, op.resource, op.job) {
        return Duplicate;
      }
      leases := kept + [LeaseFor(op)];
      return Granted;
    }

    /** Renewal, release and the purge of recovery. */
    method Maintain(op: Op)
      requires !op.Reserve?
      modifies this
      ensures leases == Step(old(leases), op)
    {
      leases := if op.Renew? then Renewed(leases, op) else Without(leases, op);
    }
  }

  predicate NonNegative(a: Amounts) {
    forall d :: d in a ==> a[d] >= 0.0
  }

  ghost predicate LeasesNonNegative(ls: seq<Lease>, resource: Resource) {
    forall i {:trigger NonNegative(ls[i].requested)} :: 0 <= i < |ls| && ls[i].resource == resource ==>
              NonNegative(ls[i].requested)
  }

  lemma {:induction false} WithoutAt(ls: seq<Lease>, op: Op, i: nat)
    requires i < |Without(ls, op)|
    ensures Without(ls, op)[i] in ls
  {
    var front, last := ls[..|ls| - 1], ls[|ls| - 1];
    if i < |Without(front, op)| {
      WithoutAt(front, op, i);
      assert Without(ls, op)[i] == Without(front, op)[i];
    }
  }

  lemma DeletingKeepsAmounts(ls: seq<Lease>, op: Op, resource: Resource)
    requires LeasesNonNegative(ls, resource)
    ensures LeasesNonNegative(Without(ls, op), resource)
  {
    var kept := Without(ls, op);
    forall i | 0 <= i < |kept| && kept[i].resource == resource
      ensures NonNegative(kept[i].requested)
    {
      WithoutAt(ls, op, i);
      var j :| 0 <= j < |ls| && ls[j] == kept[i];
      assert NonNegative(ls[j].requested);
    }
  }

  lemma {:induction false} DeletingFrees(ls: seq<Lease>, op: Op, resource: Resource, d: Dim)
    requires LeasesNonNegative(ls, resource)
    ensures Used(Without(ls, op), resource, d) <= Used(ls, resource, d)
  {
    if ls != [] {
      var front, last := ls[..|ls| - 1], ls[|ls| - 1];
      forall i | 0 <= i < |front| && front[i].resource == resource
        ensures NonNegative(front[i].requested)
      {
        assert NonNegative(ls[i].requested);
      }
      DeletingFrees(front, op, resource, d);
      var kept := Without(front, op);
      assert last.resource == resource ==> NonNegative(ls[|ls| - 1].requested);
      assert (kept + [last])[..|kept|] == kept;
      assert kept + [] == kept;
    }
  }

  lemma {:induction false} RenewingKeeps(ls: seq<Lease>, op: Op, resource: Resource, d: Dim)
    requires op.Renew?
    ensures Used(Renewed(ls, op), resource, d) == Used(ls, resource, d)
    ensures Holders(Renewed(ls, op), resource) == Holders(ls, resource)
  {
    if ls != [] {
      RenewingKeeps(ls[..|ls| - 1], op, resource, d);
      var r := Renewed(ls, op);
      assert r[..|r| - 1] == Renewed(ls[..|ls| - 1], op);
    }
  }

  lemma {:induction false} RenewedAt(ls: seq<Lease>, op: Op, i: nat)
    requires op.Renew? && i < |ls|
    ensures Renewed(ls, op)[i] == ls[i].(expires := Renewed(ls, op)[i].expires)
  {
    var r := Renewed(ls, op);
    assert r[..|r| - 1] == Renewed(ls[..|ls| - 1], op);
    if i < |ls| - 1 {
      RenewedAt(ls[..|ls| - 1], op, i);
      assert r[i] == r[..|r| - 1][i];
    }
  }

  lemma RenewingKeepsAmounts(ls: seq<Lease>, op: Op, resource: Resource)
    requires op.Renew? && LeasesNonNegative(ls, resource)
    ensures LeasesNonNegative(Renewed(ls, op), resource)
  {
    var r := Renewed(ls, op);
    forall i | 0 <= i < |r| && r[i].resource == resource
      ensures NonNegative(r[i].requested)
    {
      RenewedAt(ls, op, i);
      assert NonNegative(ls[i].requested);
    }
  }

  function Ceiling(capacity: Amounts, d: Dim): (n: real) {
    if Amount(capacity, d) > 0.0 then Amount(capacity, d) else 0.0
  }

  /** Every request for the resource declares non-negative amounts against the same capacity. */
  predicate Declared(op: Op, resource: Resource, capacity: Amounts) {
    op.Reserve? && op.resource == resource ==>
      op.requested != map[] && NonNegative(op.requested) && op.capacity == capacity && capacity != map[]
  }

  /** No request for the resource declares amounts and a capacity. */
  predicate Undeclared(op: Op, resource: Resource) {
    op.Reserve? && op.resource == resource ==> !Declares(op.requested, op.capacity)
  }

  ghost predicate AllDeclared(ops: seq<Op>, resource: Resource, capacity: Amounts) {
    forall i :: 0 <= i < |ops| ==> Declared(ops[i], resource, capacity)
  }

  ghost predicate WithinAt(ls: seq<Lease>, resource: Resource, capacity: Amounts, d: Dim) {
    LeasesNonNegative(ls, resource) && Used(ls, resource, d) <= Ceiling(capacity, d)
  }

  lemma DeletingStaysWithin(ls: seq<Lease>, op: Op, resource: Resource, capacity: Amounts, d: Dim)
    requires WithinAt(ls, resource, capacity, d)
    ensures WithinAt(Without(ls, op), resource, capacity, d)
  {
    DeletingFrees(ls, op, resource, d);
    DeletingKeepsAmounts(ls, op, resource);
  }

  lemma UsedMore(ls: seq<Lease>, l: Lease, resource: Resource, d: Dim)
    ensures Used(ls + [l], resource, d) == Used(ls, resource, d) + if l.resource == resource then Amount(l.requested, d) else 0.0
  {
    assert (ls + [l])[..|ls|] == ls;
  }

  lemma GrantStaysWithin(kept: seq<Lease>, l: Lease, resource: Resource, capacity: Amounts, d: Dim)
    requires WithinAt(kept, resource, capacity, d)
    requires l.resource == resource ==> NonNegative(l.requested)
    requires l.resource == resource && d in l.requested ==> Used(kept, resource, d) + l.requested[d] <= Amount(capacity, d)
    ensures WithinAt(kept + [l], resource, capacity, d)
  {
    UsedMore(kept, l, resource, d);
    var added := kept + [l];
    forall i | 0 <= i < |added| && added[i].resource == resource
      ensures NonNegative(added[i].requested)
    {
      assert i < |kept| ==> NonNegative(kept[i].requested);
    }
  }

  lemma StepWithinCapacity(ls: seq<Lease>, op: Op, resource: Resource, capacity: Amounts, d: Dim)
    requires WithinAt(ls, resource, capacity, d) && Declared(op, resource, capacity)
    ensures WithinAt(Step(ls, op), resource, capacity, d)
  {
    match op
    case Reserve(_, _, _, _, _, _, _) =>
      var kept := Without(ls, op);
      DeletingStaysWithin(ls, op, resource, capacity, d);
      if Decide(kept, op).Granted? {
        GrantStaysWithin(kept, LeaseFor(op), resource, capacity, d);
      }
    case Renew(_, _, _, _, _) =>
      RenewingKeeps(ls, op, resource, d);
      RenewingKeepsAmounts(ls, op, resource);
    case Release(_, _) => DeletingStaysWithin(ls, op, resource, capacity, d);
    case Expire(_) => DeletingStaysWithin(ls, op, resource, capacity, d);
  }

  /**
   Capacity over any run of reserve, renew, release and expire: with declared non-negative amounts
   and one capacity, no dimension is ever used above it.
   */
  lemma {:induction false} WithinCapacity(ops: seq<Op>, resource: Resource, capacity: Amounts, d: Dim)
    requires AllDeclared(ops, resource, capacity)
    ensures WithinAt(Exec(ops), resource, capacity, d)
  {
    if ops != [] {
      WithinCapacity(ops[..|ops| - 1], resource, capacity, d);
      StepWithinCapacity(Exec(ops[..|ops| - 1]), ops[|ops| - 1], resource, capacity, d);
    }
  }

  lemma {:induction false} DeletingLeaves(ls: seq<Lease>, op: Op, resource: Resource)
    ensures Holders(Without(ls, op), resource) <= Holders(ls, resource)
  {
    if ls != [] {
      DeletingLeaves(ls[..|ls| - 1], op, resource);
      var kept := Without(ls[..|ls| - 1], op);
      assert (kept + [ls[|ls| - 1]])[..|kept|] == kept;
      assert kept + [] == kept;
    }
  }

  /** A resource whose requests declare no amounts never has two leases. */
  lemma {:induction false} ExclusiveWithoutAmounts(ops: seq<Op>, resource: Resource)
    requires forall i :: 0 <= i < |ops| ==> Undeclared(ops[i], resource)
    ensures Holders(Exec(ops), resource) <= 1
  {
    if ops != [] {
      var ls, op := Exec(ops[..|ops| - 1]), ops[|ops| - 1];
      ExclusiveWithoutAmounts(ops[..|ops| - 1], resource);
      DeletingLeaves(ls, op, resource);
      match op
      case Reserve(_, _, _, _, _, _, _) =>
        var kept := Without(ls, op);
        assert (kept + [LeaseFor(op)])[..|kept|] == kept;
      case Renew(_, _, _, _, _) => RenewingKeeps(ls, op, resource, Dim(""));
      case _ =>
    }
  }

  /** What a request declares. */
  datatype Kind = Kind(requested: Amounts, capacity: Amounts)

  predicate Counted(k: Kind) { Declares(k.requested, k.capacity) }

  function KindOf(l: Lease): (k: Kind) { Kind(l.requested, l.capacity) }

  /** The amounts of `k` fit its capacity beside those of `u`. */
  predicate FitsBeside(k: Kind, u: Kind) {
    forall d :: d in k.requested ==> Amount(u.requested, d) + k.requested[d] <= Amount(k.capacity, d)
  }

  ghost predicate DrawnFrom(ops: seq<Op>, resource: Resource, kinds: set<Kind>) {
    forall i {:trigger ops[i]} :: 0 <= i < |ops| && ops[i].Reserve? && ops[i].resource == resource ==>
              Kind(ops[i].requested, ops[i].capacity) in kinds
  }

  predicate SoleAt(ls: seq<Lease>, resource: Resource, kinds: set<Kind>, i: nat)
    requires i < |ls|
  {
    ls[i].resource == resource ==> KindOf(ls[i]) in kinds && (!Counted(KindOf(ls[i])) ==> Holders(ls, resource) == 1)
  }

  /** A lease that declared no amounts, or no capacity, is the only lease of the resource. */
  ghost predicate Exclusive(ls: seq<Lease>, resource: Resource) {
    forall i {:trigger ls[i]} :: 0 <= i < |ls| && ls[i].resource == resource && !Counted(KindOf(ls[i])) ==>
      Holders(ls, resource) == 1
  }

  ghost predicate Sole(ls: seq<Lease>, resource: Resource, kinds: set<Kind>) {
    forall i {:trigger SoleAt(ls, resource, kinds, i)} :: 0 <= i < |ls| ==> SoleAt(ls, resource, kinds, i)
  }

  lemma HoldersMore(ls: seq<Lease>, l: Lease, resource: Resource)
    ensures Holders(ls + [l], resource) == Holders(ls, resource) + if l.resource == resource then 1 else 0
  {
    assert (ls + [l])[..|ls|] == ls;
  }

  lemma {:induction false} HolderAt(ls: seq<Lease>, resource: Resource, i: nat)
    requires i < |ls| && ls[i].resource == resource
    ensures Holders(ls, resource) >= 1
  {
    if i < |ls| - 1 {
      HolderAt(ls[..|ls| - 1], resource, i);
    }
  }

  lemma {:induction false} NoHolderNoUse(ls: seq<Lease>, resource: Resource, d: Dim)
    requires Holders(ls, resource) == 0
    ensures Used(ls, resource, d) == 0.0
  {
    if ls != [] {
      NoHolderNoUse(ls[..|ls| - 1], resource, d);
    }
  }

  lemma {:induction false} SoleUse(ls: seq<Lease>, resource: Resource, i: nat, d: Dim)
    requires Holders(ls, resource) == 1 && i < |ls| && ls[i].resource == resource
    ensures Used(ls, resource, d) == Amount(ls[i].requested, d)
  {
    var front := ls[..|ls| - 1];
    if i < |ls| - 1 {
      HolderAt(front, resource, i);
      SoleUse(front, resource, i, d);
    } else {
      NoHolderNoUse(front, resource, d);
    }
  }

  lemma DeletingKeepsSole(ls: seq<Lease>, op: Op, resource: Resource, kinds: set<Kind>)
    requires Sole(ls, resource, kinds)
    ensures Sole(Without(ls, op), resource, kinds)
  {
    var kept := Without(ls, op);
    DeletingLeaves(ls, op, resource);
    forall i | 0 <= i < |kept|
      ensures SoleAt(kept, resource, kinds, i)
    {
      WithoutAt(ls, op, i);
      var j :| 0 <= j < |ls| && ls[j] == kept[i];
      assert SoleAt(ls, resource, kinds, j);
      if kept[i].resource == resource {
        HolderAt(kept, resource, i);
      }
    }
  }

  lemma RenewingKeepsSole(ls: seq<Lease>, op: Op, resource: Resource, kinds: set<Kind>)
    requires op.Renew? && Sole(ls, resource, kinds)
    ensures Sole(Renewed(ls, op), resource, kinds)
  {
    RenewingKeeps(ls, op, resource, Dim(""));
    forall i | 0 <= i < |ls|
      ensures SoleAt(Renewed(ls, op), resource, kinds, i)
    {
      RenewedAt(ls, op, i);
      assert SoleAt(ls, resource, kinds, i);
    }
  }

  /** No counted kind fits beside a kind that is not counted. */
  ghost predicate NoIntruder(kinds: set<Kind>) {
    forall k, u {:trigger FitsBeside(k, u)} :: k in kinds && u in kinds && Counted(k) && !Counted(u) ==> !FitsBeside(k, u)
  }

  /**
   Beside a lease that declared nothing, a request is granted a second lease exactly when it
   declares amounts and a capacity, fits beside that lease, and its job holds no lease there.
   */
  lemma SecondLeaseIff(kept: seq<Lease>, op: Op, i: nat)
    requires op.Reserve? && i < |kept| && kept[i].resource == op.resource && Holders(kept, op.resource) == 1
    ensures var k := Kind(op.requested, op.capacity);
            Decide(kept, op).Granted? <==> Counted(k) && FitsBeside(k, KindOf(kept[i])) && kept[i].job != op.job
  {
    forall d
      ensures Used(kept, op.resource, d) == Amount(kept[i].requested, d)
    {
      SoleUse(kept, op.resource, i, d);
    }
    SoleHolder(kept, op.resource, op.job, i);
  }

  lemma SoleHolder(ls: seq<Lease>, resource: Resource, job: JobId, i: nat)
    requires Holders(ls, resource) == 1 && i < |ls| && ls[i].resource == resource
    ensures Held(ls, resource, job) <==> ls[i].job == job
  {
    forall j | 0 <= j < |ls| && ls[j].resource == resource
      ensures j == i
    {
      SameHolder(ls, resource, i, j);
    }
  }

  lemma {:induction false} SameHolder(ls: seq<Lease>, resource: Resource, i: nat, j: nat)
    requires Holders(ls, resource) == 1 && i < |ls| && j < |ls| && ls[i].resource == resource && ls[j].resource == resource
    ensures i == j
  {
    var n := |ls| - 1;
    if i < n && j < n {
      HolderAt(ls[..n], resource, i);
      SameHolder(ls[..n], resource, i, j);
    } else if i < n {
      HolderAt(ls[..n], resource, i);
    } else if j < n {
      HolderAt(ls[..n], resource, j);
    }
  }

  lemma GrantKeepsSole(kept: seq<Lease>, op: Op, resource: Resource, kinds: set<Kind>)
    requires Sole(kept, resource, kinds) && NoIntruder(kinds) && op.Reserve? && Decide(kept, op).Granted?
    requires op.resource == resource ==> Kind(op.requested, op.capacity) in kinds
    ensures Sole(kept + [LeaseFor(op)], resource, kinds)
  {
    var added := kept + [LeaseFor(op)];
    HoldersMore(kept, LeaseFor(op), resource);
    forall i | 0 <= i < |added|
      ensures SoleAt(added, resource, kinds, i)
    {
      if i < |kept| {
        assert SoleAt(kept, resource, kinds, i);
        if kept[i].resource == resource == op.resource && Holders(kept, resource) == 1 {
          SecondLeaseIff(kept, op, i);
        }
      }
    }
  }

  lemma StepKeepsSole(ls: seq<Lease>, op: Op, resource: Resource, kinds: set<Kind>)
    requires Sole(ls, resource, kinds) && NoIntruder(kinds)
    requires op.Reserve? && op.resource == resource ==> Kind(op.requested, op.capacity) in kinds
    ensures Sole(Step(ls, op), resource, kinds)
  {
    DeletingKeepsSole(ls, op, resource, kinds);
    if op.Renew? {
      RenewingKeepsSole(ls, op, resource, kinds);
    } else if op.Reserve? && Decide(Without(ls, op), op).Granted? {
      GrantKeepsSole(Without(ls, op), op, resource, kinds);
    }
  }

  lemma {:induction false} RunKeepsSole(ops: seq<Op>, resource: Resource, kinds: set<Kind>)
    requires DrawnFrom(ops, resource, kinds) && NoIntruder(kinds)
    ensures Sole(Exec(ops), resource, kinds)
  {
    if ops != [] {
      RunKeepsSole(ops[..|ops| - 1], resource, kinds);
      StepKeepsSole(Exec(ops[..|ops| - 1]), ops[|ops| - 1], resource, kinds);
    }
  }

  /** Two requests from the empty table, the second before the first lapses. */
  function TwoRequests(resource: Resource, u: Kind, k: Kind): (ops: seq<Op>) {
    var first := Reserve(resource, JobId("first"), "a", 0.0, 60.0, u.requested, u.capacity);
    [first] + [Reserve(resource, JobId("second"), "b", 1.0, 60.0, k.requested, k.capacity)]
  }

  lemma FirstGranted(op: Op)
    requires op.Reserve? && !Declares(op.requested, op.capacity)
    ensures Exec([op]) == [LeaseFor(op)]
  {
    assert [op][..0] == [];
    assert Without([], op) == [] && Decide([], op).Granted?;
  }

  lemma NotLapsed(l: Lease, op: Op)
    requires op.Reserve? && l.expires >= op.now
    ensures Without([l], op) == [l]
  {
    assert [l][..0] == [];
  }

  lemma SecondGranted(l: Lease, op: Op)
    requires op.Reserve? && l.resource == op.resource && l.job != op.job && l.expires >= op.now
    requires Counted(Kind(op.requested, op.capacity)) && FitsBeside(Kind(op.requested, op.capacity), KindOf(l))
    ensures Step([l], op) == [l] + [LeaseFor(op)] && Holders([l] + [LeaseFor(op)], op.resource) == 2
  {
    NotLapsed(l, op);
    HoldersMore([], l, op.resource);
    assert [] + [l] == [l];
    SecondLeaseIff([l], op, 0);
    HoldersMore([l], LeaseFor(op), op.resource);
  }

  /**
   Mixing the two kinds on one resource breaks exclusivity: from the empty table, a request with
   amounts that fit is granted beside the lease of a request that declared none.
   */
  lemma MixedRequestsOverlap(resource: Resource, u: Kind, k: Kind)
    requires Counted(k) && !Counted(u) && FitsBeside(k, u)
    ensures var ls := Exec(TwoRequests(resource, u, k));
            |ls| == 2 && KindOf(ls[0]) == u && KindOf(ls[1]) == k && Holders(ls, resource) == 2 && !Exclusive(ls, resource)
  {
    var ops := TwoRequests(resource, u, k);
    assert ops[..1] == [ops[0]];
    FirstGranted(ops[0]);
    assert |"first"| != |"second"|;
    SecondGranted(LeaseFor(ops[0]), ops[1]);
    assert Exec(ops)[0] == LeaseFor(ops[0]);
  }

  /**
   Every run drawing its requests from `kinds` keeps each undeclared lease the only one of the
   resource exactly when no counted kind fits beside a kind that is not counted.
   */
  lemma ExclusivityIff(resource: Resource, kinds: set<Kind>)
    ensures (forall ops :: DrawnFrom(ops, resource, kinds) ==> Exclusive(Exec(ops), resource)) <==> NoIntruder(kinds)
  {
    if NoIntruder(kinds) {
      forall ops | DrawnFrom(ops, resource, kinds)
        ensures Exclusive(Exec(ops), resource)
      {
        RunKeepsSole(ops, resource, kinds);
        SoleIsExclusive(Exec(ops), resource, kinds);
      }
    } else {
      var k, u :| k in kinds && u in kinds && Counted(k) && !Counted(u) && FitsBeside(k, u);
      MixedRequestsOverlap(resource, u, k);
      assert DrawnFrom(TwoRequests(resource, u, k), resource, kinds);
    }
  }

  lemma SoleIsExclusive(ls: seq<Lease>, resource: Resource, kinds: set<Kind>)
    requires Sole(ls, resource, kinds)
    ensures Exclusive(ls, resource)
  {
    forall i | 0 <= i < |ls| && ls[i].resource == resource && !Counted(KindOf(ls[i]))
      ensures Holders(ls, resource) == 1
    {
      assert SoleAt(ls, resource, kinds, i);
    }
  }

  lemma {:induction false} WithoutKeeps(ls: seq<Lease>, op: Op, l: Lease)
    ensures l in Without(ls, op) <==> l in ls && !Deletes(op, l)
  {
    if ls != [] {
      var front, last := ls[..|ls| - 1], ls[|ls| - 1];
      assert ls == front + [last];
      WithoutKeeps(front, op, l);
    }
  }

  /** Release takes exactly the lease of its job on its resource, and expiry exactly the lapsed ones. */
  lemma ReleaseAndExpiryAreExact(ls: seq<Lease>, resource: Resource, job: JobId, now: real, l: Lease)
    ensures l in Step(ls, Release(resource, job)) <==> l in ls && !(l.resource == resource && l.job == job)
    ensures l in Step(ls, Expire(now)) <==> l in ls && l.expires >= now
    ensures !Held(Step(ls, Release(resource, job)), resource, job)
  {
    WithoutKeeps(ls, Release(resource, job), l);
    WithoutKeeps(ls, Expire(now), l);
    var kept := Step(ls, Release(resource, job));
    forall i | 0 <= i < |kept|
      ensures !(kept[i].resource == resource && kept[i].job == job)
    {
      WithoutKeeps(ls, Release(resource, job), kept[i]);
    }
  }

  lemma RenewedIs(ls: seq<Lease>, op: Op, i: nat)
    requires op.Renew? && i < |ls|
    ensures var own := ls[i].resource == op.resource && ls[i].job == op.job && ls[i].owner == op.owner;
            Renewed(ls, op)[i] == if own then ls[i].(expires := op.now + op.ttl) else ls[i]
  {
    var r := Renewed(ls, op);
    assert r[..|r| - 1] == Renewed(ls[..|ls| - 1], op);
    if i < |ls| - 1 {
      RenewedIs(ls[..|ls| - 1], op, i);
      assert r[i] == r[..|r| - 1][i];
    }
  }

  /** A lease renewed by its owner outlives expiry exactly until the renewal lapses; others are not renewed. */
  lemma RenewalLastsUntilLapse(ls: seq<Lease>, i: nat, now: real, ttl: real, later: real)
    requires i < |ls|
    ensures var l, renewed := ls[i], Step(ls, Renew(ls[i].resource, ls[i].job, ls[i].owner, now, ttl));
            && |renewed| == |ls| && renewed[i] == l.(expires := now + ttl)
            && (renewed[i] in Step(renewed, Expire(later)) <==> later <= now + ttl)
            && forall j ::
                 0 <= j < |ls| && (ls[j].resource != l.resource || ls[j].job != l.job || ls[j].owner != l.owner)
                 ==> renewed[j] == ls[j]
  {
    var op := Renew(ls[i].resource, ls[i].job, ls[i].owner, now, ttl);
    var renewed := Step(ls, op);
    RenewedIs(ls, op, i);
    WithoutKeeps(renewed, Expire(later), renewed[i]);
    forall j | 0 <= j < |ls| && (ls[j].resource != ls[i].resource || ls[j].job != ls[i].job || ls[j].owner != ls[i].owner)
      ensures renewed[j] == ls[j]
    {
      RenewedIs(ls, op, j);
    }
  }
}
