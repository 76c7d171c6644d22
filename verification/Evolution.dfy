/**
 The compatibility check of the IPC schema lock: when may a contract follow the
 recorded history, and which lock is recorded next.
 */
module Evolution {
  import opened Common
  import opened Named
  import opened Contracts

  datatype Lock = Lock(format: u32, schemaHash: string, contract: Contract, retiredIds: set<u32>)

  // ----- acceptance, declaratively -----

  /** What must never change about a field number. */
  predicate SameWire(f: Field, g: Field)
  {
    f.kind == g.kind && f.target == g.target && f.repeated == g.repeated && f.map_ == g.map_
  }

  /** What may change only with the major version. */
  predicate SameApi(f: Field, g: Field)
  {
    f.optional == g.optional && f.oneof == g.oneof && f.name == g.name
  }

  predicate SameSignature(m: Method, k: Method)
  {
    && m.receiver == k.receiver && m.kind == k.kind && m.input == k.input
    && m.output == k.output && m.developmentOnly == k.developmentOnly
  }

  /** A field of the previous declaration is kept, or properly retired. */
  predicate FieldFollows(cur: Message, f: Field, sameMajor: bool)
  {
    match FieldNumbered(cur.fields, f.number)
    case Some(g) => SameWire(g, f) && (sameMajor ==> SameApi(g, f))
    case None => InHalfOpen(cur.reserved, f.number) && f.name in cur.reservedNames
  }

  predicate MessageFollows(cur: Message, prev: Message, sameMajor: bool)
  {
    && (forall f :: f in prev.fields ==> FieldFollows(cur, f, sameMajor))
    && (forall g :: g in cur.fields ==> !InHalfOpen(prev.reserved, g.number) && g.name !in prev.reservedNames)
    && (forall r :: r in prev.reserved ==> Covers(cur.reserved, r))
    && (forall n :: n in prev.reservedNames ==> n in cur.reservedNames)
  }

  predicate EnumFollows(cur: Enumeration, prev: Enumeration)
  {
    && (forall n :: n in prev.values ==>
          if n in cur.values then cur.values[n] == prev.values[n]
          else n in cur.reservedNames && InClosed(cur.reserved, prev.values[n]))
    && (forall n :: n in cur.values ==> n !in prev.reservedNames && !InClosed(prev.reserved, cur.values[n]))
    && (forall n :: n in prev.reservedNames ==> n in cur.reservedNames)
    && (forall r :: r in prev.reserved ==> Covers(cur.reserved, r))
  }

  predicate MessagesFollow(cur: Contract, prev: Contract)
  {
    forall p :: p in prev.messages && MessageNamed(cur, p.name).Some? ==>
      MessageFollows(MessageNamed(cur, p.name).value, p, cur.major == prev.major)
  }

  predicate EnumsFollow(cur: Contract, prev: Contract)
  {
    forall p :: p in prev.enums && EnumNamed(cur, p.name).Some? ==>
      EnumFollows(EnumNamed(cur, p.name).value, p)
  }

  predicate MethodFollows(m: Method, cur: Contract, prev: Lock)
  {
    && (forall p :: p in prev.contract.methods && p.name == m.name ==> p.id == m.id)
    && m.id !in prev.retiredIds
    && (match MethodWithId(prev.contract.methods, m.id)
        case None => true
        case Some(p) => p.name == m.name && (cur.major == prev.contract.major ==> SameSignature(p, m)))
  }

  /** The contract may follow the recorded lock. */
  predicate Accepts(cur: Contract, prev: Lock)
  {
    && prev.format == 1 && prev.contract.name == cur.name && prev.contract.major <= cur.major
    && (forall m :: m in cur.methods ==> MethodFollows(m, cur, prev))
    && MessagesFollow(cur, prev.contract)
    && EnumsFollow(cur, prev.contract)
  }

  // ----- the next lock -----

  function NextRetired(cur: Contract, prev: Lock): set<u32>
  {
    prev.retiredIds + (Ids(prev.contract) - Ids(cur))
  }

  /** The latest declaration of every type ever seen. */
  function NextMessages(cur: Contract, prev: Option<Lock>): seq<Message>
  {
    Sort(match prev case None => cur.messages case Some(o) => Merge(cur.messages, o.contract.messages, MessageName),
         MessageName)
  }

  function NextEnums(cur: Contract, prev: Option<Lock>): seq<Enumeration>
  {
    Sort(match prev case None => cur.enums case Some(o) => Merge(cur.enums, o.contract.enums, EnumName),
         EnumName)
  }

  function Next(cur: Contract, hash: string, prev: Option<Lock>): Lock
  {
    Lock(1, hash,
         cur.(messages := NextMessages(cur, prev), enums := NextEnums(cur, prev)),
         match prev case None => {} case Some(o) => NextRetired(cur, o))
  }

  // ----- chains of generations -----

  datatype Generation = Generation(contract: Contract, hash: string)

  /** Generation `k` is well formed and was accepted against the lock left by those before it. */
  predicate AcceptedAt(gens: seq<Generation>, k: nat)
    requires k < |gens|
  {
    WellFormed(gens[k].contract) && (k > 0 ==> Accepts(gens[k].contract, LockAfter(gens[..k])))
  }

  /** A history that starts from no lock at all. */
  predicate Accepted(gens: seq<Generation>)
  {
    forall k :: 0 <= k < |gens| ==> AcceptedAt(gens, k)
  }

  function LockAfter(gens: seq<Generation>): Lock
    requires gens != []
  {
    var last := gens[|gens| - 1];
    var before := gens[..|gens| - 1];
    Next(last.contract, last.hash, if before == [] then None else Some(LockAfter(before)))
  }
}
