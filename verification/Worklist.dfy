/**
 The reachability worklist that collects a contract's messages and enums from a
 descriptor pool, proved to compute exactly the closure of the methods' types.
 */
module Worklist {
  import opened Common
  import opened Contracts

  const MAX_REACHABLE: nat := 4096

  datatype Kind = ToMessage(message: string) | ToEnum(enumeration: string) | Scalar

  datatype FieldDescriptor = FieldDescriptor(kind: Kind, optionsAllowed: bool)

  /** `valid` is the verdict of `validate_message_descriptor`, `recorded` the value of `message(&desc)`. */
  datatype MessageDescriptor = MessageDescriptor(fields: seq<FieldDescriptor>, valid: bool, recorded: Message)

  datatype EnumDescriptor = EnumDescriptor(optionsAllowed: bool, recorded: Enumeration)

  datatype Pool = Pool(messages: map<string, MessageDescriptor>, enums: map<string, EnumDescriptor>)

  datatype Fault = SchemaLimit | MissingMessage(name: string) | InvalidMessage(name: string) | UnsupportedOption(name: string)

  datatype Collected = Collected(messages: map<string, Message>, enums: map<string, Enumeration>)

  // ----- the closure, without a worklist -----

  /** A descriptor pool resolves every enum a field refers to. */
  predicate Resolved(pool: Pool)
  {
    forall n :: n in pool.messages ==> FieldsResolved(pool, pool.messages[n].fields)
  }

  predicate FieldsResolved(pool: Pool, fields: seq<FieldDescriptor>)
  {
    forall f :: f in fields && f.kind.ToEnum? ==> f.kind.enumeration in pool.enums
  }

  /** Method inputs, and outputs of the methods that answer. */
  predicate IsRoot(methods: seq<Method>, n: string)
  {
    exists m :: m in methods && (n == m.input || (m.kind == "rpc" && n == m.output))
  }

  predicate Refers(fields: seq<FieldDescriptor>, kind: Kind)
  {
    exists f :: f in fields && f.kind == kind
  }

  predicate Edge(pool: Pool, a: string, b: string)
  {
    a in pool.messages && Refers(pool.messages[a].fields, ToMessage(b))
  }

  predicate IsPath(pool: Pool, path: seq<string>)
  {
    path != [] && forall i :: 0 <= i < |path| - 1 ==> Edge(pool, path[i], path[i + 1])
  }

  ghost predicate Reaches(pool: Pool, methods: seq<Method>, n: string)
  {
    exists path :: IsPath(pool, path) && IsRoot(methods, path[0]) && path[|path| - 1] == n
  }

  /** Every option on the fields and on the enums they refer to is allowed. */
  predicate OptionsAllowed(pool: Pool, fields: seq<FieldDescriptor>)
    requires FieldsResolved(pool, fields)
  {
    forall f :: f in fields ==> FieldAllowed(pool, f)
  }

  predicate FieldAllowed(pool: Pool, f: FieldDescriptor)
    requires f.kind.ToEnum? ==> f.kind.enumeration in pool.enums
  {
    f.optionsAllowed && (f.kind.ToEnum? ==> pool.enums[f.kind.enumeration].optionsAllowed)
  }

  predicate Good(pool: Pool, n: string)
    requires Resolved(pool)
  {
    n in pool.messages && pool.messages[n].valid && OptionsAllowed(pool, pool.messages[n].fields)
  }

  ghost predicate TooMany(pool: Pool, methods: seq<Method>)
  {
    exists s: set<string> :: |s| > MAX_REACHABLE && forall n :: n in s ==> Reaches(pool, methods, n)
  }

  ghost predicate Acceptable(pool: Pool, methods: seq<Method>)
    requires Resolved(pool)
  {
    !TooMany(pool, methods) && forall n :: Reaches(pool, methods, n) ==> Good(pool, n)
  }

  ghost predicate EnumUsed(pool: Pool, methods: seq<Method>, e: string)
  {
    exists n :: Reaches(pool, methods, n) && n in pool.messages && Refers(pool.messages[n].fields, ToEnum(e))
  }

  /** The answer holds exactly the reachable messages and the enums they use, as declared. */
  ghost predicate IsClosure(pool: Pool, methods: seq<Method>, c: Collected)
  {
    && (forall n :: n in c.messages <==> Reaches(pool, methods, n))
    && (forall n :: n in c.messages ==> n in pool.messages && c.messages[n] == pool.messages[n].recorded)
    && (forall e :: e in c.enums <==> EnumUsed(pool, methods, e))
    && (forall e :: e in c.enums ==> e in pool.enums && c.enums[e] == pool.enums[e].recorded)
  }

  /** The fault is a real one, and it is at a reachable message. */
  ghost predicate Blames(pool: Pool, methods: seq<Method>, fault: Fault)
    requires Resolved(pool)
  {
    match fault
    case SchemaLimit => TooMany(pool, methods)
    case MissingMessage(n) => Reaches(pool, methods, n) && n !in pool.messages
    case InvalidMessage(n) => Reaches(pool, methods, n) && n in pool.messages && !pool.messages[n].valid
    case UnsupportedOption(n) =>
      Reaches(pool, methods, n) && n in pool.messages && !OptionsAllowed(pool, pool.messages[n].fields)
  }

  // ----- facts about reaching -----

  lemma {:induction false} RootReaches(pool: Pool, methods: seq<Method>, n: string)
    requires IsRoot(methods, n)
    ensures Reaches(pool, methods, n)
  {
    assert IsPath(pool, [n]);
  }

  lemma {:induction false} EdgeReaches(pool: Pool, methods: seq<Method>, a: string, b: string)
    requires Reaches(pool, methods, a) && Edge(pool, a, b)
    ensures Reaches(pool, methods, b)
  {
    var path :| IsPath(pool, path) && IsRoot(methods, path[0]) && path[|path| - 1] == a;
    var longer := path + [b];
    forall i | 0 <= i < |longer| - 1 ensures Edge(pool, longer[i], longer[i + 1]) {
      if i < |path| - 1 { assert longer[i] == path[i] && longer[i + 1] == path[i + 1]; }
    }
    assert IsPath(pool, longer) && longer[|longer| - 1] == b;
  }

  /** A set that holds the roots and is closed under edges holds everything reachable. */
  lemma {:induction false} ClosedHoldsPath(pool: Pool, path: seq<string>, s: set<string>)
    requires IsPath(pool, path) && path[0] in s
    requires forall a, b :: a in s && Edge(pool, a, b) ==> b in s
    ensures path[|path| - 1] in s
  {
    if |path| > 1 {
      var front := path[..|path| - 1];
      forall i | 0 <= i < |front| - 1 ensures Edge(pool, front[i], front[i + 1]) {
        assert front[i] == path[i] && front[i + 1] == path[i + 1];
      }
      ClosedHoldsPath(pool, front, s);
      assert Edge(pool, path[|path| - 2], path[|path| - 1]);
    }
  }

  lemma {:induction false} ClosedHoldsReachable(pool: Pool, methods: seq<Method>, s: set<string>, n: string)
    requires forall r :: IsRoot(methods, r) ==> r in s
    requires forall a, b :: a in s && Edge(pool, a, b) ==> b in s
    requires Reaches(pool, methods, n)
    ensures n in s
  {
    var path :| IsPath(pool, path) && IsRoot(methods, path[0]) && path[|path| - 1] == n;
    ClosedHoldsPath(pool, path, s);
  }

  // ----- the loops -----

  method Roots(methods: seq<Method>) returns (pending: seq<string>)
    ensures forall n :: n in pending <==> IsRoot(methods, n)
    ensures forall m :: m in methods ==> m.input in pending && (m.kind == "rpc" ==> m.output in pending)
  {
    pending := [];
    for i := 0 to |methods|
      invariant forall n :: n in pending <==> IsRoot(methods[..i], n)
    {
      assert methods[..i + 1] == methods[..i] + [methods[i]];
      pending := pending + [methods[i].input];
      if methods[i].kind == "rpc" { pending := pending + [methods[i].output]; }
    }
    assert methods[..|methods|] == methods;
  }

  /** The loop over one message's fields. */
  method ScanFields(pool: Pool, fields: seq<FieldDescriptor>, pending: seq<string>, enums: map<string, Enumeration>)
    returns (ok: bool, more: seq<string>, found: map<string, Enumeration>)
    requires FieldsResolved(pool, fields)
    requires forall e :: e in enums ==> e in pool.enums && enums[e] == pool.enums[e].recorded
    ensures ok <==> OptionsAllowed(pool, fields)
    ensures ok ==> forall n :: n in more <==> n in pending || Refers(fields, ToMessage(n))
    ensures ok ==> forall e :: e in found <==> e in enums || Refers(fields, ToEnum(e))
    ensures ok ==> forall e :: e in found ==> e in pool.enums && found[e] == pool.enums[e].recorded
  {
    more, found := pending, enums;
    for i := 0 to |fields|
      invariant forall k :: 0 <= k < i ==> FieldAllowed(pool, fields[k])
      invariant forall n :: n in more <==> n in pending || Refers(fields[..i], ToMessage(n))
      invariant forall e :: e in found <==> e in enums || Refers(fields[..i], ToEnum(e))
      invariant forall e :: e in found ==> e in pool.enums && found[e] == pool.enums[e].recorded
    {
      var f := fields[i];
      assert fields[..i + 1] == fields[..i] + [f];
      if !f.optionsAllowed { assert !FieldAllowed(pool, f); return false, [], map[]; }
      match f.kind
      case ToMessage(m) => more := more + [m];
      case ToEnum(e) =>
        if !pool.enums[e].optionsAllowed { assert !FieldAllowed(pool, f); return false, [], map[]; }
        found := found[e := pool.enums[e].recorded];
      case Scalar =>
    }
    assert fields[..|fields|] == fields;
    ok := true;
  }

  /** Everything seen is reachable, and everything reachable is seen or leads through `pending`. */
  ghost predicate Frontier(pool: Pool, methods: seq<Method>, reachable: set<string>, pending: seq<string>)
  {
    && (forall n :: n in reachable || n in pending ==> Reaches(pool, methods, n))
    && (forall n :: IsRoot(methods, n) ==> n in reachable || n in pending)
    && (forall a, b :: a in reachable && Edge(pool, a, b) ==> b in reachable || b in pending)
  }

  predicate UsedIn(pool: Pool, names: set<string>, e: string)
  {
    exists n :: n in names && n in pool.messages && Refers(pool.messages[n].fields, ToEnum(e))
  }

  /** What was collected belongs to the messages visited so far, all of which pass the checks. */
  ghost predicate Holding(pool: Pool, reachable: set<string>, c: Collected)
    requires Resolved(pool)
  {
    && c.messages.Keys == reachable
    && (forall n :: n in reachable ==> Good(pool, n) && c.messages[n] == pool.messages[n].recorded)
    && (forall e :: e in c.enums <==> UsedIn(pool, reachable, e))
    && (forall e :: e in c.enums ==> e in pool.enums && c.enums[e] == pool.enums[e].recorded)
  }

  lemma {:induction false} VisitFrontier(pool: Pool, methods: seq<Method>, reachable: set<string>,
                                         rest: seq<string>, name: string, more: seq<string>)
    requires Frontier(pool, methods, reachable, rest + [name]) && name in pool.messages
    requires forall n :: n in more <==> n in rest || Refers(pool.messages[name].fields, ToMessage(n))
    ensures Frontier(pool, methods, reachable + {name}, more)
  {
    var pending := rest + [name];
    assert name in pending && forall n :: n in pending <==> n in rest || n == name;
    forall n | n in more ensures Reaches(pool, methods, n) {
      if n !in rest { EdgeReaches(pool, methods, name, n); } else { assert n in pending; }
    }
  }

  lemma {:induction false} VisitHolding(pool: Pool, reachable: set<string>, c: Collected,
                                        name: string, found: map<string, Enumeration>)
    requires Resolved(pool) && Holding(pool, reachable, c) && Good(pool, name)
    requires forall e :: e in found <==> e in c.enums || Refers(pool.messages[name].fields, ToEnum(e))
    requires forall e :: e in found ==> e in pool.enums && found[e] == pool.enums[e].recorded
    ensures Holding(pool, reachable + {name}, Collected(c.messages[name := pool.messages[name].recorded], found))
  {
    var next := reachable + {name};
    forall e ensures e in found <==> UsedIn(pool, next, e) {
      if e in c.enums {
        var n :| n in reachable && n in pool.messages && Refers(pool.messages[n].fields, ToEnum(e));
        assert n in next;
      } else if UsedIn(pool, next, e) {
        var n :| n in next && n in pool.messages && Refers(pool.messages[n].fields, ToEnum(e));
        assert n == name;
      } else {
        assert name in next;
      }
    }
  }

  /** A name that is seen already can be skipped. */
  lemma {:induction false} SkipFrontier(pool: Pool, methods: seq<Method>, reachable: set<string>, rest: seq<string>, name: string)
    requires Frontier(pool, methods, reachable, rest + [name]) && name in reachable
    ensures Frontier(pool, methods, reachable, rest)
  {
    var pending := rest + [name];
    assert forall n :: n in pending <==> n in rest || n == name;
  }

  lemma {:induction false} NotTooMany(pool: Pool, methods: seq<Method>, reachable: set<string>)
    requires |reachable| <= MAX_REACHABLE && forall n :: Reaches(pool, methods, n) ==> n in reachable
    ensures !TooMany(pool, methods)
  {
    forall s: set<string> | forall n :: n in s ==> Reaches(pool, methods, n) ensures |s| <= MAX_REACHABLE {
      assert s <= reachable;
      assert reachable == s + (reachable - s);
    }
  }

  lemma {:induction false} Finished(pool: Pool, methods: seq<Method>, reachable: set<string>, c: Collected)
    requires Resolved(pool) && Frontier(pool, methods, reachable, []) && Holding(pool, reachable, c)
    requires |reachable| <= MAX_REACHABLE
    ensures IsClosure(pool, methods, c) && Acceptable(pool, methods) && |c.messages| <= MAX_REACHABLE
  {
    assert |c.messages| == |c.messages.Keys|;
    forall n ensures n in reachable <==> Reaches(pool, methods, n) {
      if Reaches(pool, methods, n) { ClosedHoldsReachable(pool, methods, reachable, n); }
    }
    NotTooMany(pool, methods, reachable);
    forall e ensures UsedIn(pool, reachable, e) <==> EnumUsed(pool, methods, e) {
      if EnumUsed(pool, methods, e) {
        var n :| Reaches(pool, methods, n) && n in pool.messages && Refers(pool.messages[n].fields, ToEnum(e));
        assert n in reachable;
      }
    }
  }

  lemma {:induction false} BlamedIsRejected(pool: Pool, methods: seq<Method>, fault: Fault)
    requires Resolved(pool) && Blames(pool, methods, fault)
    ensures !Acceptable(pool, methods)
  {
  }

  /** The body of the main loop for a name not seen before. */
  method VisitMessage(pool: Pool, ghost methods: seq<Method>, ghost reachable: set<string>,
                      rest: seq<string>, c: Collected, name: string)
    returns (fault: Option<Fault>, more: seq<string>, next: Collected)
    requires Resolved(pool) && Frontier(pool, methods, reachable, rest + [name]) && Holding(pool, reachable, c)
    ensures fault.Some? ==> Blames(pool, methods, fault.value)
    ensures fault.None? ==> Frontier(pool, methods, reachable + {name}, more) && Holding(pool, reachable + {name}, next)
  {
    assert name in rest + [name];
    more, next := rest, c;
    if name !in pool.messages { return Some(MissingMessage(name)), more, next; }
    if !pool.messages[name].valid { return Some(InvalidMessage(name)), more, next; }
    var ok, targets, found := ScanFields(pool, pool.messages[name].fields, rest, c.enums);
    if !ok { return Some(UnsupportedOption(name)), more, next; }
    VisitFrontier(pool, methods, reachable, rest, name, targets);
    VisitHolding(pool, reachable, c, name, found);
    return None, targets, Collected(c.messages[name := pool.messages[name].recorded], found);
  }

  lemma {:induction false} LimitExceeded(pool: Pool, methods: seq<Method>, reachable: set<string>, rest: seq<string>, name: string)
    requires Frontier(pool, methods, reachable, rest + [name]) && |reachable + {name}| > MAX_REACHABLE
    ensures TooMany(pool, methods)
  {
    assert name in rest + [name];
    var s := reachable + {name};
    assert forall n :: n in s ==> Reaches(pool, methods, n);
  }

  lemma {:induction false} RootsFrontier(pool: Pool, methods: seq<Method>, pending: seq<string>)
    requires forall n :: n in pending <==> IsRoot(methods, n)
    ensures Frontier(pool, methods, {}, pending)
  {
    forall n | IsRoot(methods, n) ensures Reaches(pool, methods, n) { RootReaches(pool, methods, n); }
  }

  lemma {:induction false} NothingHeld(pool: Pool)
    requires Resolved(pool)
    ensures Holding(pool, {}, Collected(map[], map[]))
  {
  }

  /** One turn of the main loop: a name is skipped, visited, or at fault. */
  method Turn(pool: Pool, ghost methods: seq<Method>, reachable: set<string>, rest: seq<string>, c: Collected, name: string)
    returns (fault: Option<Fault>, seen: set<string>, more: seq<string>, next: Collected)
    requires Resolved(pool) && Frontier(pool, methods, reachable, rest + [name]) && Holding(pool, reachable, c)
    requires |reachable| <= MAX_REACHABLE
    ensures fault.Some? ==> Blames(pool, methods, fault.value)
    ensures fault.None? ==> Frontier(pool, methods, seen, more) && Holding(pool, seen, next) && |seen| <= MAX_REACHABLE
    ensures fault.None? ==> |seen| > |reachable| || (seen == reachable && more == rest)
  {
    seen, more, next := reachable, rest, c;
    if name in reachable {
      SkipFrontier(pool, methods, reachable, rest, name);
      return None, seen, more, next;
    }
    seen := reachable + {name};
    assert |seen| == |reachable| + 1;
    if |seen| > MAX_REACHABLE {
      LimitExceeded(pool, methods, reachable, rest, name);
      return Some(SchemaLimit), seen, more, next;
    }
    fault, more, next := VisitMessage(pool, methods, reachable, rest, c, name);
  }

  /**
   The worklist of `build`: it terminates, succeeds exactly when everything reachable is
   declared, valid and within the limit, and then answers the closure; a failure names
   a reachable message that is at fault.
   */
  method Collect(pool: Pool, methods: seq<Method>) returns (r: Result<Collected, Fault>)
    requires Resolved(pool)
    ensures r.Ok? <==> Acceptable(pool, methods)
    ensures r.Ok? ==> IsClosure(pool, methods, r.value) && |r.value.messages| <= 4096
    ensures r.Err? ==> Blames(pool, methods, r.error)
  {
    var reachable: set<string> := {};
    var pending := Roots(methods);
    var c := Collected(map[], map[]);
    RootsFrontier(pool, methods, pending);
    NothingHeld(pool);
    while pending != []
      invariant Frontier(pool, methods, reachable, pending)
      invariant Holding(pool, reachable, c) && |reachable| <= MAX_REACHABLE
      decreases MAX_REACHABLE + 1 - |reachable|, |pending|
    {
      var name := pending[|pending| - 1];
      var rest := pending[..|pending| - 1];
      assert pending == rest + [name];
      var fault;
      fault, reachable, pending, c := Turn(pool, methods, reachable, rest, c, name);
      if fault.Some? {
        BlamedIsRejected(pool, methods, fault.value);
        return Err(fault.value);
      }
    }
    Finished(pool, methods, reachable, c);
    return Ok(c);
  }

  // ----- the closure as a least set -----

  /** A set of names that holds every root and every message its members refer to. */
  ghost predicate ClosedUnder(pool: Pool, methods: seq<Method>, names: set<string>)
  {
    && (forall m :: m in methods ==> m.input in names && (m.kind == "rpc" ==> m.output in names))
    && (forall n, f :: n in names && n in pool.messages && f in pool.messages[n].fields && f.kind.ToMessage? ==>
          f.kind.message in names)
  }

  /**
   What an answer means without paths: its messages are the least set closed under the
   methods' types and message fields, its enums are those its messages refer to, all of
   them valid with allowed options, and at most 4096.
   */
  lemma {:induction false} ClosureIsLeast(pool: Pool, methods: seq<Method>, c: Collected, names: set<string>)
    requires Resolved(pool) && Acceptable(pool, methods) && IsClosure(pool, methods, c)
    ensures ClosedUnder(pool, methods, c.messages.Keys)
    ensures ClosedUnder(pool, methods, names) ==> c.messages.Keys <= names
    ensures forall n :: n in c.messages ==>
              && n in pool.messages && pool.messages[n].valid
              && forall f :: f in pool.messages[n].fields ==>
                   && f.optionsAllowed
                   && (f.kind.ToEnum? ==> f.kind.enumeration in c.enums && pool.enums[f.kind.enumeration].optionsAllowed)
    ensures |c.messages| <= 4096
  {
    HoldsRoots(pool, methods, c);
    HoldsTargets(pool, methods, c);
    if ClosedUnder(pool, methods, names) {
      forall n | n in c.messages ensures n in names { LeastHolds(pool, methods, names, n); }
    }
    forall n, f | n in c.messages && f in pool.messages[n].fields
      ensures FieldAllowed(pool, f) && (f.kind.ToEnum? ==> f.kind.enumeration in c.enums)
    {
      assert Good(pool, n);
      if f.kind.ToEnum? { assert Refers(pool.messages[n].fields, ToEnum(f.kind.enumeration)); }
    }
    assert |c.messages| == |c.messages.Keys|;
    assert !(|c.messages.Keys| > MAX_REACHABLE && forall n :: n in c.messages.Keys ==> Reaches(pool, methods, n));
  }

  lemma {:induction false} HoldsRoots(pool: Pool, methods: seq<Method>, c: Collected)
    requires IsClosure(pool, methods, c)
    ensures forall m :: m in methods ==> m.input in c.messages && (m.kind == "rpc" ==> m.output in c.messages)
  {
    forall m | m in methods ensures m.input in c.messages && (m.kind == "rpc" ==> m.output in c.messages) {
      RootReaches(pool, methods, m.input);
      if m.kind == "rpc" { RootReaches(pool, methods, m.output); }
    }
  }

  lemma {:induction false} HoldsTargets(pool: Pool, methods: seq<Method>, c: Collected)
    requires IsClosure(pool, methods, c)
    ensures forall n, f :: n in c.messages && n in pool.messages && f in pool.messages[n].fields && f.kind.ToMessage? ==>
              f.kind.message in c.messages
  {
    forall n, f | n in c.messages && n in pool.messages && f in pool.messages[n].fields && f.kind.ToMessage?
      ensures f.kind.message in c.messages
    {
      assert Refers(pool.messages[n].fields, ToMessage(f.kind.message));
      EdgeReaches(pool, methods, n, f.kind.message);
    }
  }

  lemma {:induction false} LeastHolds(pool: Pool, methods: seq<Method>, names: set<string>, n: string)
    requires ClosedUnder(pool, methods, names) && Reaches(pool, methods, n)
    ensures n in names
  {
    forall a, b | a in names && Edge(pool, a, b) ensures b in names {
      var f :| f in pool.messages[a].fields && f.kind == ToMessage(b);
    }
    forall r | IsRoot(methods, r) ensures r in names {
      var m :| m in methods && (r == m.input || (m.kind == "rpc" && r == m.output));
    }
    ClosedHoldsReachable(pool, methods, names, n);
  }

  // ----- the order of pops does not matter -----

  lemma {:induction false} SameReach(pool: Pool, p: seq<Method>, q: seq<Method>, n: string)
    requires (forall r :: IsRoot(p, r) <==> IsRoot(q, r)) && Reaches(pool, p, n)
    ensures Reaches(pool, q, n)
  {
    var path :| IsPath(pool, path) && IsRoot(p, path[0]) && path[|path| - 1] == n;
    assert IsRoot(q, path[0]);
  }

  lemma {:induction false} SameUse(pool: Pool, p: seq<Method>, q: seq<Method>, e: string)
    requires (forall r :: IsRoot(p, r) <==> IsRoot(q, r)) && EnumUsed(pool, p, e)
    ensures EnumUsed(pool, q, e)
  {
    var n :| Reaches(pool, p, n) && n in pool.messages && Refers(pool.messages[n].fields, ToEnum(e));
    SameReach(pool, p, q, n);
  }

  predicate Included(a: Collected, b: Collected)
  {
    && (forall n :: n in a.messages ==> n in b.messages && a.messages[n] == b.messages[n])
    && (forall e :: e in a.enums ==> e in b.enums && a.enums[e] == b.enums[e])
  }

  lemma {:induction false} IncludedBothWays(a: Collected, b: Collected)
    requires Included(a, b) && Included(b, a)
    ensures a == b
  {
    assert a.messages == b.messages && a.enums == b.enums;
  }

  lemma {:induction false} ClosureIncluded(pool: Pool, p: seq<Method>, q: seq<Method>, a: Collected, b: Collected)
    requires forall n :: IsRoot(p, n) <==> IsRoot(q, n)
    requires IsClosure(pool, p, a) && IsClosure(pool, q, b)
    ensures Included(a, b)
  {
    forall n | n in a.messages ensures n in b.messages { SameReach(pool, p, q, n); }
    forall e | e in a.enums ensures e in b.enums { SameUse(pool, p, q, e); }
  }

  /** The closure is unique, so the answer depends neither on pop order nor on the order of methods or fields. */
  lemma {:induction false} ClosureIsUnique(pool: Pool, p: seq<Method>, q: seq<Method>, a: Collected, b: Collected)
    requires forall n :: IsRoot(p, n) <==> IsRoot(q, n)
    requires IsClosure(pool, p, a) && IsClosure(pool, q, b)
    ensures a == b
  {
    ClosureIncluded(pool, p, q, a, b);
    ClosureIncluded(pool, q, p, b, a);
    IncludedBothWays(a, b);
  }
}
