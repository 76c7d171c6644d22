/** What chains of accepted lock updates guarantee, over any number of generations. */
module EvolutionTheorems {
  import opened Common
  import opened Named
  import opened Contracts
  import opened Evolution

  // ----- one declaration after another -----

  lemma {:induction false} HalfOpenGrows(a: seq<(int, int)>, b: seq<(int, int)>, n: int)
    requires (forall r :: r in a ==> Covers(b, r)) && InHalfOpen(a, n)
    ensures InHalfOpen(b, n)
  {
    var r :| r in a && r.0 <= n < r.1;
    var q :| q in b && q.0 <= r.0 && r.1 <= q.1;
  }

  lemma {:induction false} ClosedGrows(a: seq<(int, int)>, b: seq<(int, int)>, n: int)
    requires (forall r :: r in a ==> Covers(b, r)) && InClosed(a, n)
    ensures InClosed(b, n)
  {
    var r :| r in a && r.0 <= n <= r.1;
    var q :| q in b && q.0 <= r.0 && r.1 <= q.1;
  }

  lemma {:induction false} CoversTransitive(a: seq<(int, int)>, b: seq<(int, int)>, c: seq<(int, int)>)
    requires (forall r :: r in a ==> Covers(b, r)) && (forall r :: r in b ==> Covers(c, r))
    ensures forall r :: r in a ==> Covers(c, r)
  {
    forall r | r in a ensures Covers(c, r) {
      var q :| q in b && q.0 <= r.0 && r.1 <= q.1;
      var p :| p in c && p.0 <= q.0 && q.1 <= p.1;
    }
  }

  /** The part of compatibility that survives major versions: wire types and reservations. */
  predicate WireFollows(cur: Message, prev: Message)
  {
    && (forall f :: f in prev.fields ==>
          match FieldNumbered(cur.fields, f.number)
          case Some(g) => SameWire(g, f)
          case None => InHalfOpen(cur.reserved, f.number))
    && (forall r :: r in prev.reserved ==> Covers(cur.reserved, r))
    && (forall n :: n in prev.reservedNames ==> n in cur.reservedNames)
  }

  lemma {:induction false} FollowsReflexive(m: Message, sameMajor: bool)
    requires WellFormedMessage(m)
    ensures MessageFollows(m, m, sameMajor) && WireFollows(m, m)
  {
  }

  lemma {:induction false} FieldFollowsTransitive(c: Message, b: Message, a: Message, f: Field)
    requires MessageFollows(b, a, true) && MessageFollows(c, b, true) && f in a.fields
    ensures FieldFollows(c, f, true)
  {
    match FieldNumbered(b.fields, f.number)
    case Some(g) => assert FieldFollows(c, g, true);
    case None => HalfOpenGrows(b.reserved, c.reserved, f.number);
  }

  /** Within one major version, compatibility is transitive. */
  lemma {:induction false} FollowsTransitive(c: Message, b: Message, a: Message)
    requires MessageFollows(b, a, true) && MessageFollows(c, b, true) && WellFormedMessage(c)
    ensures MessageFollows(c, a, true)
  {
    CoversTransitive(a.reserved, b.reserved, c.reserved);
    forall f | f in a.fields ensures FieldFollows(c, f, true) {
      FieldFollowsTransitive(c, b, a, f);
    }
    forall g | g in c.fields ensures !InHalfOpen(a.reserved, g.number) && g.name !in a.reservedNames {
      if InHalfOpen(a.reserved, g.number) { HalfOpenGrows(a.reserved, c.reserved, g.number); }
    }
  }

  /** Across major versions, wire compatibility is transitive. */
  lemma {:induction false} WireTransitive(c: Message, b: Message, a: Message, sameMajor: bool)
    requires WireFollows(b, a) && MessageFollows(c, b, sameMajor)
    ensures WireFollows(c, a)
  {
    CoversTransitive(a.reserved, b.reserved, c.reserved);
    forall f | f in a.fields
      ensures match FieldNumbered(c.fields, f.number)
              case Some(g) => SameWire(g, f)
              case None => InHalfOpen(c.reserved, f.number)
    {
      match FieldNumbered(b.fields, f.number)
      case Some(g) => assert FieldFollows(c, g, sameMajor);
      case None => HalfOpenGrows(b.reserved, c.reserved, f.number);
    }
  }

  lemma {:induction false} EnumReflexive(e: Enumeration)
    requires WellFormedEnum(e)
    ensures EnumFollows(e, e)
  {
  }

  /** Enum compatibility is transitive whatever the major versions. */
  lemma {:induction false} EnumTransitive(c: Enumeration, b: Enumeration, a: Enumeration)
    requires EnumFollows(b, a) && EnumFollows(c, b) && WellFormedEnum(c)
    ensures EnumFollows(c, a)
  {
    CoversTransitive(a.reserved, b.reserved, c.reserved);
    forall n | n in a.values
      ensures if n in c.values then c.values[n] == a.values[n]
              else n in c.reservedNames && InClosed(c.reserved, a.values[n])
    {
      if n !in b.values { ClosedGrows(b.reserved, c.reserved, a.values[n]); }
    }
    forall n | n in c.values ensures n !in a.reservedNames && !InClosed(a.reserved, c.values[n]) {
      if InClosed(a.reserved, c.values[n]) { ClosedGrows(a.reserved, c.reserved, c.values[n]); }
    }
  }

  // ----- the lock keeps the latest declaration of every type ever seen -----

  lemma {:induction false} AcceptedPrefix(gens: seq<Generation>, n: nat)
    requires Accepted(gens) && n <= |gens|
    ensures Accepted(gens[..n])
  {
    forall k | 0 <= k < n ensures AcceptedAt(gens[..n], k) {
      assert AcceptedAt(gens, k) && gens[..n][..k] == gens[..k];
    }
  }

  /** The last generation of a history, and the history before it. */
  lemma {:induction false} AcceptedLast(gens: seq<Generation>)
    requires Accepted(gens) && gens != []
    ensures Accepted(gens[..|gens| - 1]) && WellFormed(gens[|gens| - 1].contract)
    ensures |gens| > 1 ==> Accepts(gens[|gens| - 1].contract, LockAfter(gens[..|gens| - 1]))
  {
    AcceptedPrefix(gens, |gens| - 1);
    assert AcceptedAt(gens, |gens| - 1);
  }

  function LatestMessage(gens: seq<Generation>, n: string): Option<Message>
  {
    if gens == [] then None
    else
      var m := MessageNamed(gens[|gens| - 1].contract, n);
      if m.Some? then m else LatestMessage(gens[..|gens| - 1], n)
  }

  function LatestEnum(gens: seq<Generation>, n: string): Option<Enumeration>
  {
    if gens == [] then None
    else
      var e := EnumNamed(gens[|gens| - 1].contract, n);
      if e.Some? then e else LatestEnum(gens[..|gens| - 1], n)
  }

  lemma {:induction false} LockRecordsMessages(gens: seq<Generation>, n: string)
    requires gens != [] && Accepted(gens)
    ensures MessageNamed(LockAfter(gens).contract, n) == LatestMessage(gens, n)
  {
    AcceptedLast(gens);
    var last := gens[|gens| - 1].contract;
    var before := gens[..|gens| - 1];
    if before == [] {
      SortFinds(last.messages, MessageName, n);
    } else {
      LockRecordsMessages(before, n);
      var merged := Merge(last.messages, LockAfter(before).contract.messages, MessageName);
      MergeUnique(last.messages, LockAfter(before).contract.messages, MessageName);
      MergeFinds(last.messages, LockAfter(before).contract.messages, MessageName, n);
      SortFinds(merged, MessageName, n);
    }
  }

  lemma {:induction false} LockRecordsEnums(gens: seq<Generation>, n: string)
    requires gens != [] && Accepted(gens)
    ensures EnumNamed(LockAfter(gens).contract, n) == LatestEnum(gens, n)
  {
    AcceptedLast(gens);
    var last := gens[|gens| - 1].contract;
    var before := gens[..|gens| - 1];
    if before == [] {
      SortFinds(last.enums, EnumName, n);
    } else {
      LockRecordsEnums(before, n);
      var merged := Merge(last.enums, LockAfter(before).contract.enums, EnumName);
      MergeUnique(last.enums, LockAfter(before).contract.enums, EnumName);
      MergeFinds(last.enums, LockAfter(before).contract.enums, EnumName, n);
      SortFinds(merged, EnumName, n);
    }
  }

  // ----- descent from any earlier generation -----

  lemma {:induction false} MajorsGrow(gens: seq<Generation>, i: nat)
    requires Accepted(gens) && i < |gens|
    ensures gens[i].contract.major <= gens[|gens| - 1].contract.major
  {
    AcceptedLast(gens);
    var before := gens[..|gens| - 1];
    if i < |gens| - 1 {
      MajorsGrow(before, i);
      assert LockAfter(before).contract.major == before[|before| - 1].contract.major;
    }
  }

  /** Every declaration of message `n` is an ancestor of its latest one. */
  lemma {:induction false} MessageDescends(gens: seq<Generation>, i: nat, n: string)
    requires Accepted(gens) && i < |gens| && MessageNamed(gens[i].contract, n).Some?
    ensures LatestMessage(gens, n).Some?
    ensures WireFollows(LatestMessage(gens, n).value, MessageNamed(gens[i].contract, n).value)
    ensures gens[i].contract.major == gens[|gens| - 1].contract.major ==>
              MessageFollows(LatestMessage(gens, n).value, MessageNamed(gens[i].contract, n).value, true)
  {
    AcceptedLast(gens);
    var a := MessageNamed(gens[i].contract, n).value;
    var last := gens[|gens| - 1].contract;
    if i == |gens| - 1 {
      assert a in last.messages;
      FollowsReflexive(a, true);
    } else {
      var before := gens[..|gens| - 1];
      assert before[i] == gens[i];
      MessageDescends(before, i, n);
      MajorsGrow(before, i);
      var b := LatestMessage(before, n).value;
      var c := MessageNamed(last, n);
      if c.Some? {
        LockRecordsMessages(before, n);
        assert b in LockAfter(before).contract.messages && b.name == n;
        assert MessageFollows(c.value, b, last.major == LockAfter(before).contract.major);
        WireTransitive(c.value, b, a, last.major == LockAfter(before).contract.major);
        if gens[i].contract.major == last.major {
          FollowsTransitive(c.value, b, a);
        }
      }
    }
  }

  lemma {:induction false} EnumDescends(gens: seq<Generation>, i: nat, n: string)
    requires Accepted(gens) && i < |gens| && EnumNamed(gens[i].contract, n).Some?
    ensures LatestEnum(gens, n).Some?
    ensures EnumFollows(LatestEnum(gens, n).value, EnumNamed(gens[i].contract, n).value)
  {
    AcceptedLast(gens);
    var a := EnumNamed(gens[i].contract, n).value;
    var last := gens[|gens| - 1].contract;
    if i == |gens| - 1 {
      assert a in last.enums;
      EnumReflexive(a);
    } else {
      var before := gens[..|gens| - 1];
      assert before[i] == gens[i];
      EnumDescends(before, i, n);
      var b := LatestEnum(before, n).value;
      var c := EnumNamed(last, n);
      if c.Some? {
        LockRecordsEnums(before, n);
        assert b in LockAfter(before).contract.enums && b.name == n;
        EnumTransitive(c.value, b, a);
      }
    }
  }

  /** Two declarations of a message, any number of generations apart. */
  lemma {:induction false} MessagePair(gens: seq<Generation>, i: nat, k: nat, n: string)
    requires Accepted(gens) && i <= k < |gens|
    requires MessageNamed(gens[i].contract, n).Some? && MessageNamed(gens[k].contract, n).Some?
    ensures WireFollows(MessageNamed(gens[k].contract, n).value, MessageNamed(gens[i].contract, n).value)
    ensures WellFormedMessage(MessageNamed(gens[k].contract, n).value)
    ensures gens[i].contract.major == gens[k].contract.major ==>
              MessageFollows(MessageNamed(gens[k].contract, n).value, MessageNamed(gens[i].contract, n).value, true)
  {
    AcceptedPrefix(gens, k + 1);
    var upto := gens[..k + 1];
    assert upto[i] == gens[i] && upto[|upto| - 1] == gens[k];
    MessageDescends(upto, i, n);
    var c := MessageNamed(gens[k].contract, n);
    assert LatestMessage(upto, n) == c && c.value in gens[k].contract.messages;
    AcceptedLast(upto);
  }

  lemma {:induction false} EnumPair(gens: seq<Generation>, i: nat, k: nat, n: string)
    requires Accepted(gens) && i <= k < |gens|
    requires EnumNamed(gens[i].contract, n).Some? && EnumNamed(gens[k].contract, n).Some?
    ensures EnumFollows(EnumNamed(gens[k].contract, n).value, EnumNamed(gens[i].contract, n).value)
    ensures WellFormedEnum(EnumNamed(gens[k].contract, n).value)
  {
    AcceptedPrefix(gens, k + 1);
    var upto := gens[..k + 1];
    assert upto[i] == gens[i] && upto[|upto| - 1] == gens[k];
    EnumDescends(upto, i, n);
    var c := EnumNamed(gens[k].contract, n);
    assert LatestEnum(upto, n) == c && c.value in gens[k].contract.enums;
    AcceptedLast(upto);
  }

  // ----- main results -----

  function FieldAt(g: Generation, message: string, number: u32): Option<Field>
  {
    match MessageNamed(g.contract, message)
    case None => None
    case Some(m) => FieldNumbered(m.fields, number)
  }

  /**
   A field number keeps one kind, target and shape for life and never returns once
   removed: if it is used in generations `i` and `k`, every generation between them
   that declares the message uses it with the same wire type, even if the message
   itself vanished for some generations.
   */
  lemma {:induction false} FieldNumberForLife(gens: seq<Generation>, i: nat, j: nat, k: nat, message: string, number: u32)
    requires Accepted(gens) && i <= j <= k < |gens|
    requires FieldAt(gens[i], message, number).Some? && FieldAt(gens[k], message, number).Some?
    ensures MessageNamed(gens[j].contract, message).Some? ==> FieldAt(gens[j], message, number).Some?
    ensures MessageNamed(gens[j].contract, message).Some? ==>
              var f, g := FieldAt(gens[i], message, number).value, FieldAt(gens[j], message, number).value;
              g.kind == f.kind && g.target == f.target && g.repeated == f.repeated && g.map_ == f.map_
  {
    MessagePair(gens, i, k, message);
    if MessageNamed(gens[j].contract, message).Some? {
      MessagePair(gens, i, j, message);
      MessagePair(gens, j, k, message);
      var b := MessageNamed(gens[j].contract, message).value;
      var c := MessageNamed(gens[k].contract, message).value;
      if FieldAt(gens[j], message, number).None? {
        assert InHalfOpen(b.reserved, number);
        HalfOpenGrows(b.reserved, c.reserved, number);
      }
    }
  }

  /** Within one major version a field number also keeps its name, its presence and its oneof. */
  lemma {:induction false} FieldApiForMajor(gens: seq<Generation>, i: nat, k: nat, message: string, number: u32)
    requires Accepted(gens) && i <= k < |gens| && gens[i].contract.major == gens[k].contract.major
    requires FieldAt(gens[i], message, number).Some? && FieldAt(gens[k], message, number).Some?
    ensures var f, g := FieldAt(gens[i], message, number).value, FieldAt(gens[k], message, number).value;
            g.name == f.name && g.optional == f.optional && g.oneof == f.oneof
  {
    MessagePair(gens, i, k, message);
    var f := FieldAt(gens[i], message, number).value;
    assert FieldFollows(MessageNamed(gens[k].contract, message).value, f, true);
  }

  /** One accepted update: what becomes of a field of the recorded message. */
  lemma {:induction false} UpdateKeepsField(cur: Contract, prev: Lock, p: Message, c: Message, f: Field)
    requires Accepts(cur, prev) && p in prev.contract.messages && MessageNamed(cur, p.name) == Some(c) && f in p.fields
    ensures match FieldNumbered(c.fields, f.number)
            case Some(g) =>
              && g.kind == f.kind && g.target == f.target && g.repeated == f.repeated && g.map_ == f.map_
              && (cur.major == prev.contract.major ==> g.name == f.name && g.optional == f.optional && g.oneof == f.oneof)
            case None => f.name in c.reservedNames && exists r :: r in c.reserved && r.0 <= f.number < r.1
  {
    assert FieldFollows(c, f, cur.major == prev.contract.major);
  }

  // ----- what the reservations cover -----

  /** A message range stops short of its end: one number is `[n, n + 1)`, and adjacent ranges join. */
  lemma {:induction false} MessageRanges(a: int, b: int, c: int, n: int)
    requires a <= b <= c
    ensures InHalfOpen([(a, a + 1)], n) <==> n == a
    ensures InHalfOpen([(a, c)], n) <==> InHalfOpen([(a, b)], n) || InHalfOpen([(b, c)], n)
  {
    assert (a, a + 1) in [(a, a + 1)] && (a, c) in [(a, c)] && (a, b) in [(a, b)] && (b, c) in [(b, c)];
  }

  /** An enum range includes its end: one number is `[n, n]`. */
  lemma {:induction false} EnumRanges(a: int, b: int, c: int, n: int)
    requires a <= b < c
    ensures InClosed([(a, a)], n) <==> n == a
    ensures InClosed([(a, c)], n) <==> InClosed([(a, b)], n) || InClosed([(b + 1, c)], n)
  {
    assert (a, a) in [(a, a)] && (a, c) in [(a, c)] && (a, b) in [(a, b)] && (b + 1, c) in [(b + 1, c)];
  }

  function ValueAt(g: Generation, enumeration: string, name: string): Option<int>
  {
    match EnumNamed(g.contract, enumeration)
    case None => None
    case Some(e) => if name in e.values then Some(e.values[name]) else None
  }

  /** An enum value name keeps one number for life and never returns once removed. */
  lemma {:induction false} EnumValueForLife(gens: seq<Generation>, i: nat, j: nat, k: nat, enumeration: string, name: string)
    requires Accepted(gens) && i <= j <= k < |gens|
    requires ValueAt(gens[i], enumeration, name).Some? && ValueAt(gens[k], enumeration, name).Some?
    ensures ValueAt(gens[k], enumeration, name) == ValueAt(gens[i], enumeration, name)
    ensures EnumNamed(gens[j].contract, enumeration).Some? ==>
              ValueAt(gens[j], enumeration, name) == ValueAt(gens[i], enumeration, name)
  {
    EnumPair(gens, i, k, enumeration);
    if EnumNamed(gens[j].contract, enumeration).Some? {
      EnumPair(gens, i, j, enumeration);
      EnumPair(gens, j, k, enumeration);
    }
  }

  /** Every field the later declaration no longer has is named in the later reservations. */
  predicate RemovedNamesReserved(cur: Message, prev: Message)
  {
    forall f :: f in prev.fields && FieldNumbered(cur.fields, f.number).None? ==> f.name in cur.reservedNames
  }

  /** Between a declaration and any descendant, that is all the message checks can still object to. */
  lemma {:induction false} DescendantFollowsExactly(c: Message, a: Message, sameMajor: bool)
    requires WireFollows(c, a) && WellFormedMessage(c) && (sameMajor ==> MessageFollows(c, a, true))
    ensures MessageFollows(c, a, sameMajor) <==> RemovedNamesReserved(c, a)
  {
    forall g | g in c.fields ensures !InHalfOpen(a.reserved, g.number) && g.name !in a.reservedNames {
      if InHalfOpen(a.reserved, g.number) { HalfOpenGrows(a.reserved, c.reserved, g.number); }
    }
    if RemovedNamesReserved(c, a) {
      forall f | f in a.fields ensures FieldFollows(c, f, sameMajor) { }
    } else {
      var f :| f in a.fields && FieldNumbered(c.fields, f.number).None? && f.name !in c.reservedNames;
      assert !FieldFollows(c, f, sameMajor);
    }
  }

  /** The names of the fields each message lost since are reserved in the later contract. */
  predicate RemovalsReserved(cur: Contract, prev: Contract)
  {
    forall p :: p in prev.messages && MessageNamed(cur, p.name).Some? ==>
      RemovedNamesReserved(MessageNamed(cur, p.name).value, p)
  }

  lemma {:induction false} OneMessagePassesExactly(gens: seq<Generation>, i: nat, k: nat, p: Message)
    requires Accepted(gens) && i <= k < |gens| && p in gens[i].contract.messages
    requires MessageNamed(gens[k].contract, p.name).Some?
    ensures var c := MessageNamed(gens[k].contract, p.name).value;
            MessageFollows(c, p, gens[k].contract.major == gens[i].contract.major) <==> RemovedNamesReserved(c, p)
  {
    AcceptedPrefix(gens, i + 1);
    AcceptedLast(gens[..i + 1]);
    assert gens[..i + 1][|gens[..i + 1]| - 1] == gens[i];
    FindMember(gens[i].contract.messages, MessageName, p);
    MessagePair(gens, i, k, p.name);
    DescendantFollowsExactly(MessageNamed(gens[k].contract, p.name).value, p,
                             gens[k].contract.major == gens[i].contract.major);
  }

  /**
   Over any accepted history, whatever the majors, a later contract passes the message
   checks directly against an earlier one exactly when every field removed since is
   reserved under the name it had in the earlier one.
   */
  lemma {:induction false} LaterPassesExactly(gens: seq<Generation>, i: nat, k: nat)
    requires Accepted(gens) && i <= k < |gens|
    ensures MessagesFollow(gens[k].contract, gens[i].contract) <==> RemovalsReserved(gens[k].contract, gens[i].contract)
  {
    forall p | p in gens[i].contract.messages && MessageNamed(gens[k].contract, p.name).Some?
      ensures MessageFollows(MessageNamed(gens[k].contract, p.name).value, p,
                             gens[k].contract.major == gens[i].contract.major)
         <==> RemovedNamesReserved(MessageNamed(gens[k].contract, p.name).value, p)
    {
      OneMessagePassesExactly(gens, i, k, p);
    }
  }

  /** Within one major version a field keeps its name, so every removal is reserved under it. */
  lemma {:induction false} SameMajorReserves(gens: seq<Generation>, i: nat, k: nat)
    requires Accepted(gens) && i <= k < |gens| && gens[i].contract.major == gens[k].contract.major
    ensures RemovalsReserved(gens[k].contract, gens[i].contract)
  {
    var c, a := gens[k].contract, gens[i].contract;
    AcceptedPrefix(gens, i + 1);
    AcceptedLast(gens[..i + 1]);
    assert gens[..i + 1][|gens[..i + 1]| - 1] == gens[i];
    forall p | p in a.messages && MessageNamed(c, p.name).Some?
      ensures RemovedNamesReserved(MessageNamed(c, p.name).value, p)
    {
      FindMember(a.messages, MessageName, p);
      MessagePair(gens, i, k, p.name);
      DescendantFollowsExactly(MessageNamed(c, p.name).value, p, true);
    }
  }

  lemma {:induction false} EnumsPass(gens: seq<Generation>, i: nat, k: nat)
    requires Accepted(gens) && i <= k < |gens|
    ensures EnumsFollow(gens[k].contract, gens[i].contract)
  {
    var c, a := gens[k].contract, gens[i].contract;
    AcceptedPrefix(gens, i + 1);
    AcceptedLast(gens[..i + 1]);
    assert gens[..i + 1][|gens[..i + 1]| - 1] == gens[i];
    forall p | p in a.enums && EnumNamed(c, p.name).Some? ensures EnumFollows(EnumNamed(c, p.name).value, p) {
      FindMember(a.enums, EnumName, p);
      EnumPair(gens, i, k, p.name);
    }
  }

  /**
   Within one major version every later contract passes the message and enum checks
   directly against every earlier one, not only against its predecessor; the enum
   checks are passed across major versions too.
   */
  lemma {:induction false} LaterPassesEarlier(gens: seq<Generation>, i: nat, k: nat)
    requires Accepted(gens) && i <= k < |gens|
    ensures EnumsFollow(gens[k].contract, gens[i].contract)
    ensures gens[i].contract.major == gens[k].contract.major ==> MessagesFollow(gens[k].contract, gens[i].contract)
  {
    EnumsPass(gens, i, k);
    if gens[i].contract.major == gens[k].contract.major {
      SameMajorReserves(gens, i, k);
      LaterPassesExactly(gens, i, k);
    }
  }

  // ----- across majors a removal may be reserved under another name only -----

  function OneMessage(major: u32, fields: seq<Field>, reserved: seq<(int, int)>, reservedNames: seq<string>): Contract
  {
    Contract("app", major, [], [Message("M", "app.proto", "M", "M", false, fields, reserved, reservedNames)], [])
  }

  function TextField(name: string): Field
  {
    Field(1, name, "string", None, false, false, false, None, false, false)
  }

  lemma {:induction false} OneMessageLock(c: Contract, hash: string, prev: Option<Lock>)
    requires |c.messages| == 1 && c.enums == []
    requires prev.Some? ==> |prev.value.contract.messages| == 1 && prev.value.contract.enums == []
                            && prev.value.contract.messages[0].name == c.messages[0].name
    ensures Next(c, hash, prev).contract == c
  {
    var m := c.messages[0];
    assert c.messages == [m] && Sort(c.messages[1..], MessageName) == [];
    assert Sort([m], MessageName) == [m];
    if prev.Some? {
      var o := prev.value.contract.messages;
      assert Find(c.messages, MessageName, o[0].name) == Some(m);
      assert Merge(c.messages, o[1..], MessageName) == c.messages;
    }
  }

  /** Between contracts that only declare one and the same message, the checks reduce to that message. */
  lemma {:induction false} OneMessageFollows(c: Contract, a: Contract)
    requires |c.messages| == 1 && |a.messages| == 1 && c.messages[0].name == a.messages[0].name
    ensures MessagesFollow(c, a) <==> MessageFollows(c.messages[0], a.messages[0], c.major == a.major)
  {
    assert MessageNamed(c, a.messages[0].name) == Some(c.messages[0]);
  }

  /** A chain whose contracts have no methods and no enums, and one message under one name. */
  predicate Slim(c: Contract)
  {
    c.name == "app" && c.methods == [] && c.enums == [] && |c.messages| == 1 && c.messages[0].name == "M"
  }

  lemma {:induction false} SlimStart(c: Contract) returns (gens: seq<Generation>)
    requires Slim(c) && WellFormed(c)
    ensures Accepted(gens) && |gens| == 1 && gens[0].contract == c && LockAfter(gens).contract == c
  {
    gens := [Generation(c, "")];
    OneMessageLock(c, "", None);
    assert AcceptedAt(gens, 0);
  }

  lemma {:induction false} AcceptedAppend(before: seq<Generation>, g: Generation)
    requires before != [] && Accepted(before) && WellFormed(g.contract) && Accepts(g.contract, LockAfter(before))
    ensures Accepted(before + [g])
  {
    var gens := before + [g];
    forall k | 0 <= k < |gens| ensures AcceptedAt(gens, k) {
      if k < |before| {
        assert AcceptedAt(before, k) && gens[..k] == before[..k];
      } else {
        assert gens[..k] == before;
      }
    }
  }

  lemma {:induction false} SlimAppend(before: seq<Generation>, c: Contract) returns (gens: seq<Generation>)
    requires before != [] && Accepted(before) && Slim(LockAfter(before).contract)
    requires Slim(c) && WellFormed(c) && LockAfter(before).contract.major <= c.major
    requires MessagesFollow(c, LockAfter(before).contract)
    ensures Accepted(gens) && gens == before + [Generation(c, "")] && LockAfter(gens).contract == c
  {
    gens := before + [Generation(c, "")];
    assert gens[..|before|] == before;
    OneMessageLock(c, "", Some(LockAfter(before)));
    AcceptedAppend(before, Generation(c, ""));
  }

  function Original(): Contract { OneMessage(1, [TextField("a")], [], []) }
  function Renamed(): Contract { OneMessage(2, [TextField("b")], [], []) }
  function Retired(): Contract { OneMessage(2, [], [(1, 2)], ["b"]) }

  lemma {:induction false} OneMessageWellFormed(major: u32, fields: seq<Field>, reserved: seq<(int, int)>, reservedNames: seq<string>)
    requires |fields| <= 1 && (fields != [] ==> reserved == [] && reservedNames == [])
    ensures Slim(OneMessage(major, fields, reserved, reservedNames))
    ensures WellFormed(OneMessage(major, fields, reserved, reservedNames))
  {
  }

  lemma {:induction false} ThreeGenerations(a: Contract, b: Contract, c: Contract) returns (gens: seq<Generation>)
    requires Slim(a) && Slim(b) && Slim(c) && WellFormed(a) && WellFormed(b) && WellFormed(c)
    requires a.major <= b.major <= c.major && MessagesFollow(b, a) && MessagesFollow(c, b)
    ensures Accepted(gens) && |gens| == 3 && gens[0].contract == a && gens[2].contract == c
  {
    var one := SlimStart(a);
    var two := SlimAppend(one, b);
    gens := SlimAppend(two, c);
  }

  lemma {:induction false} RenamedFollowsOriginal()
    ensures MessagesFollow(Renamed(), Original())
  {
    OneMessageFollows(Renamed(), Original());
  }

  lemma {:induction false} RetiredFollowsRenamedOnly()
    ensures MessagesFollow(Retired(), Renamed()) && !MessagesFollow(Retired(), Original())
  {
    OneMessageFollows(Retired(), Renamed());
    OneMessageFollows(Retired(), Original());
    assert (1, 2) in Retired().messages[0].reserved;
    assert InHalfOpen(Retired().messages[0].reserved, 1);
    assert "a"[0] != "b"[0];
    assert TextField("a") in Original().messages[0].fields;
    assert !FieldFollows(Retired().messages[0], TextField("a"), false);
  }

  /**
   A field renamed with a major bump and then retired under its new name: each contract
   is accepted in turn, but the last one does not pass the checks against the first,
   because it reserves the new name only.
   */
  lemma {:induction false} RenameThenRetire() returns (gens: seq<Generation>)
    ensures Accepted(gens) && |gens| == 3
    ensures !MessagesFollow(gens[2].contract, gens[0].contract)
  {
    OneMessageWellFormed(1, [TextField("a")], [], []);
    OneMessageWellFormed(2, [TextField("b")], [], []);
    OneMessageWellFormed(2, [], [(1, 2)], ["b"]);
    RenamedFollowsOriginal();
    RetiredFollowsRenamedOnly();
    gens := ThreeGenerations(Original(), Renamed(), Retired());
  }

  // ----- method ids -----

  function AllIds(gens: seq<Generation>): set<u32>
  {
    if gens == [] then {} else AllIds(gens[..|gens| - 1]) + Ids(gens[|gens| - 1].contract)
  }

  /** The retired ids are exactly all ids ever seen that the current contract does not use. */
  lemma {:induction false} RetiredExactly(gens: seq<Generation>)
    requires gens != [] && Accepted(gens)
    ensures LockAfter(gens).retiredIds == AllIds(gens) - Ids(gens[|gens| - 1].contract)
  {
    AcceptedLast(gens);
    var last := gens[|gens| - 1].contract;
    var before := gens[..|gens| - 1];
    if before != [] {
      RetiredExactly(before);
      var old_ := LockAfter(before);
      assert Ids(old_.contract) == Ids(before[|before| - 1].contract);
      forall id | id in Ids(last) ensures id !in old_.retiredIds {
        var m :| m in last.methods && m.id == id;
        assert MethodFollows(m, last, old_);
      }
    }
  }

  lemma {:induction false} IdsSeen(gens: seq<Generation>, i: nat)
    requires i < |gens|
    ensures Ids(gens[i].contract) <= AllIds(gens)
  {
    var before := gens[..|gens| - 1];
    if i < |gens| - 1 {
      assert before[i] == gens[i];
      IdsSeen(before, i);
    }
  }

  /** Both contracts use the id, under one name, with one signature unless the major changed. */
  predicate SameMethod(p: Contract, c: Contract, id: u32)
  {
    match (MethodWithId(p.methods, id), MethodWithId(c.methods, id))
    case (Some(m), Some(k)) =>
      && m.name == k.name
      && (p.major == c.major ==>
            && m.receiver == k.receiver && m.kind == k.kind && m.input == k.input
            && m.output == k.output && m.developmentOnly == k.developmentOnly)
    case _ => false
  }

  /** A method id used now and in an earlier generation was used, under the same name, by the one before. */
  lemma {:induction false} MethodStep(gens: seq<Generation>, i: nat, id: u32)
    requires Accepted(gens) && i < |gens| - 1
    requires id in Ids(gens[i].contract) && id in Ids(gens[|gens| - 1].contract)
    ensures SameMethod(gens[|gens| - 2].contract, gens[|gens| - 1].contract, id)
  {
    AcceptedLast(gens);
    var last := gens[|gens| - 1].contract;
    var before := gens[..|gens| - 1];
    var lock := LockAfter(before);
    var m := MethodWithId(last.methods, id).value;
    assert MethodFollows(m, last, lock);
    assert before[i] == gens[i] && before[|before| - 1] == gens[|gens| - 2];
    RetiredExactly(before);
    IdsSeen(before, i);
    assert id in Ids(before[|before| - 1].contract);
  }

  lemma {:induction false} MethodConsecutive(gens: seq<Generation>, i: nat, k: nat, id: u32)
    requires Accepted(gens) && i < k < |gens| && id in Ids(gens[i].contract) && id in Ids(gens[k].contract)
    ensures SameMethod(gens[k - 1].contract, gens[k].contract, id)
  {
    AcceptedPrefix(gens, k + 1);
    var upto := gens[..k + 1];
    assert upto[i] == gens[i] && upto[|upto| - 1] == gens[k] && upto[|upto| - 2] == gens[k - 1];
    MethodStep(upto, i, id);
  }

  lemma {:induction false} MajorsOrdered(gens: seq<Generation>, i: nat, k: nat)
    requires Accepted(gens) && i <= k < |gens|
    ensures gens[i].contract.major <= gens[k].contract.major
  {
    AcceptedPrefix(gens, k + 1);
    var upto := gens[..k + 1];
    assert upto[i] == gens[i] && upto[|upto| - 1] == gens[k];
    MajorsGrow(upto, i);
  }

  lemma {:induction false} SameMethodTransitive(a: Contract, b: Contract, c: Contract, id: u32)
    requires SameMethod(a, b, id) && SameMethod(b, c, id) && a.major <= b.major <= c.major
    ensures SameMethod(a, c, id)
  {
  }

  lemma {:induction false} SameMethodUsesId(c: Contract, id: u32)
    ensures SameMethod(c, c, id) <==> id in Ids(c)
    ensures forall a :: SameMethod(c, a, id) ==> id in Ids(c)
  {
  }

  /**
   A method id seen in two generations was present in every one between them, always
   under the same name, and with the same signature while the major is unchanged.
   */
  lemma {:induction false} MethodIdForLife(gens: seq<Generation>, i: nat, j: nat, k: nat, id: u32)
    requires Accepted(gens) && i <= j <= k < |gens|
    requires id in Ids(gens[i].contract) && id in Ids(gens[k].contract)
    ensures SameMethod(gens[j].contract, gens[k].contract, id)
    decreases k
  {
    if j < k {
      MethodConsecutive(gens, i, k, id);
      SameMethodUsesId(gens[k - 1].contract, id);
      MethodIdForLife(gens, i, j, k - 1, id);
      MajorsOrdered(gens, j, k - 1);
      MajorsOrdered(gens, k - 1, k);
      SameMethodTransitive(gens[j].contract, gens[k - 1].contract, gens[k].contract, id);
    } else {
      SameMethodUsesId(gens[k].contract, id);
    }
  }

  // ----- updating again -----

  lemma {:induction false} SameSortedHistory<T(!new)>(cur: seq<T>, prev: seq<T>, name: T -> string)
    requires UniqueNames(cur, name)
    ensures var merged := Merge(cur, prev, name);
            Sort(Merge(cur, Sort(merged, name), name), name) == Sort(merged, name)
  {
    var merged := Merge(cur, prev, name);
    var sorted := Sort(merged, name);
    var again := Merge(cur, sorted, name);
    MergeUnique(cur, prev, name);
    MergeUnique(cur, sorted, name);
    SortCorrect(merged, name);
    SortCorrect(again, name);
    forall x ensures x in Sort(again, name) <==> x in sorted {
      FindMember(again, name, x);
      FindMember(merged, name, x);
      MergeFinds(cur, sorted, name, name(x));
      MergeFinds(cur, prev, name, name(x));
      SortFinds(merged, name, name(x));
    }
    SortedDetermined(Sort(again, name), sorted, name);
  }

  lemma {:induction false} MergeNothing<T(!new)>(cur: seq<T>, name: T -> string)
    ensures Merge(cur, [], name) == cur
  {
  }

  /** Every type of the contract is recorded as declared, so it follows itself. */
  lemma {:induction false} RecordedFollowsItself(c: Contract, hash: string, prev: Option<Lock>)
    requires WellFormed(c)
    ensures MessagesFollow(c, Next(c, hash, prev).contract) && EnumsFollow(c, Next(c, hash, prev).contract)
  {
    var lock := Next(c, hash, prev).contract;
    var oldMessages := if prev.None? then [] else prev.value.contract.messages;
    var oldEnums := if prev.None? then [] else prev.value.contract.enums;
    MergeNothing(c.messages, MessageName);
    MergeNothing(c.enums, EnumName);
    MergeUnique(c.messages, oldMessages, MessageName);
    MergeUnique(c.enums, oldEnums, EnumName);
    SortCorrect(Merge(c.messages, oldMessages, MessageName), MessageName);
    SortCorrect(Merge(c.enums, oldEnums, EnumName), EnumName);
    forall p | p in lock.messages && MessageNamed(c, p.name).Some?
      ensures MessageFollows(MessageNamed(c, p.name).value, p, true)
    {
      FindMember(Merge(c.messages, oldMessages, MessageName), MessageName, p);
      MergeFinds(c.messages, oldMessages, MessageName, p.name);
      FollowsReflexive(p, true);
    }
    forall p | p in lock.enums && EnumNamed(c, p.name).Some?
      ensures EnumFollows(EnumNamed(c, p.name).value, p)
    {
      FindMember(Merge(c.enums, oldEnums, EnumName), EnumName, p);
      MergeFinds(c.enums, oldEnums, EnumName, p.name);
      EnumReflexive(p);
    }
  }

  /**
   Updating again with the same contract and hash against the lock just produced, from
   any previous lock whatsoever, is accepted and reproduces that lock exactly.
   */
  lemma {:induction false} UpdateIsStable(c: Contract, hash: string, prev: Option<Lock>)
    requires WellFormed(c) && (prev.Some? ==> Accepts(c, prev.value))
    ensures Accepts(c, Next(c, hash, prev))
    ensures Next(c, hash, Some(Next(c, hash, prev))) == Next(c, hash, prev)
  {
    var lock := Next(c, hash, prev);
    RecordedFollowsItself(c, hash, prev);
    forall m | m in c.methods ensures MethodFollows(m, c, lock) {
      assert prev.Some? ==> MethodFollows(m, c, prev.value);
      assert m.id in Ids(c);
    }
    var oldMessages := if prev.None? then [] else prev.value.contract.messages;
    var oldEnums := if prev.None? then [] else prev.value.contract.enums;
    MergeNothing(c.messages, MessageName);
    MergeNothing(c.enums, EnumName);
    SameSortedHistory(c.messages, oldMessages, MessageName);
    SameSortedHistory(c.enums, oldEnums, EnumName);
    assert Ids(lock.contract) == Ids(c);
  }
}
