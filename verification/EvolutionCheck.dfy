/**
 The lock update as it runs: nested loops over methods, fields and values that stop at
 the first diagnostic. Proved to accept exactly what `Accepts` allows, to record exactly
 `Next`, and to name a rule and a subject that really are at fault.
 */
module EvolutionCheck {
  import opened Common
  import opened Named
  import opened Contracts
  import opened Evolution

  /** The previous lock file: none, one that does not parse, or a parsed lock. */
  datatype Previous = Absent | Unreadable | Recorded(lock: Lock)

  datatype Rule =
    | IpcLock | IpcLockContract
    | IpcMethodIdChange | IpcRetiredId | IpcMethodRename | IpcBreakingMethod
    | IpcFieldType | IpcBreakingField | IpcFieldRetirement | IpcRetiredField
    | IpcReservationHistory
    | IpcEnumNumber | IpcEnumRetirement | IpcRetiredEnum

  datatype Diagnostic = Diagnostic(rule: Rule, subject: string)

  // ----- what each diagnostic means, in the terms of the schema alone -----

  predicate MethodViolates(rule: Rule, m: Method, cur: Contract, prev: Lock)
  {
    match rule
    case IpcMethodIdChange => exists p :: p in prev.contract.methods && p.name == m.name && p.id != m.id
    case IpcRetiredId => m.id in prev.retiredIds
    case IpcMethodRename =>
      var p := MethodWithId(prev.contract.methods, m.id);
      p.Some? && p.value.name != m.name
    case IpcBreakingMethod =>
      var p := MethodWithId(prev.contract.methods, m.id);
      && p.Some? && cur.major == prev.contract.major
      && (p.value.receiver != m.receiver || p.value.kind != m.kind || p.value.input != m.input
          || p.value.output != m.output || p.value.developmentOnly != m.developmentOnly)
    case _ => false
  }

  predicate FieldViolates(rule: Rule, cur: Message, f: Field, sameMajor: bool)
  {
    var g := FieldNumbered(cur.fields, f.number);
    match rule
    case IpcFieldType =>
      g.Some? && (g.value.kind != f.kind || g.value.target != f.target || g.value.repeated != f.repeated || g.value.map_ != f.map_)
    case IpcBreakingField =>
      g.Some? && sameMajor && (g.value.optional != f.optional || g.value.oneof != f.oneof || g.value.name != f.name)
    case IpcFieldRetirement =>
      g.None? && (f.name !in cur.reservedNames || forall r :: r in cur.reserved ==> f.number < r.0 || r.1 <= f.number)
    case _ => false
  }

  predicate MessageViolates(rule: Rule, cur: Message, prev: Message, sameMajor: bool)
  {
    match rule
    case IpcRetiredField =>
      exists g :: g in cur.fields &&
        (g.name in prev.reservedNames || exists r :: r in prev.reserved && r.0 <= g.number < r.1)
    case IpcReservationHistory =>
      || (exists r :: r in prev.reserved && forall q :: q in cur.reserved ==> r.0 < q.0 || q.1 < r.1)
      || (exists n :: n in prev.reservedNames && n !in cur.reservedNames)
    case _ => exists f :: f in prev.fields && FieldViolates(rule, cur, f, sameMajor)
  }

  predicate EnumViolates(rule: Rule, cur: Enumeration, prev: Enumeration)
  {
    match rule
    case IpcEnumNumber => exists n :: n in prev.values && n in cur.values && cur.values[n] != prev.values[n]
    case IpcEnumRetirement =>
      exists n :: n in prev.values && n !in cur.values &&
        (n !in cur.reservedNames || forall r :: r in cur.reserved ==> prev.values[n] < r.0 || r.1 < prev.values[n])
    case IpcRetiredEnum =>
      exists n :: n in cur.values &&
        (n in prev.reservedNames || exists r :: r in prev.reserved && r.0 <= cur.values[n] <= r.1)
    case IpcReservationHistory =>
      || (exists n :: n in prev.reservedNames && n !in cur.reservedNames)
      || (exists r :: r in prev.reserved && forall q :: q in cur.reserved ==> r.0 < q.0 || q.1 < r.1)
    case _ => false
  }

  predicate MethodsViolate(d: Diagnostic, cur: Contract, prev: Lock)
  {
    exists m :: m in cur.methods && m.name == d.subject && MethodViolates(d.rule, m, cur, prev)
  }

  predicate MessagesViolate(d: Diagnostic, cur: Contract, prev: Contract)
  {
    exists p :: p in prev.messages && p.name == d.subject && MessageNamed(cur, p.name).Some? &&
      MessageViolates(d.rule, MessageNamed(cur, p.name).value, p, cur.major == prev.major)
  }

  predicate EnumsViolate(d: Diagnostic, cur: Contract, prev: Contract)
  {
    exists p :: p in prev.enums && p.name == d.subject && EnumNamed(cur, p.name).Some? &&
      EnumViolates(d.rule, EnumNamed(cur, p.name).value, p)
  }

  predicate LockViolates(d: Diagnostic, cur: Contract, prev: Lock)
  {
    && d.rule == IpcLockContract && d.subject == cur.name
    && (prev.format != 1 || prev.contract.name != cur.name || cur.major < prev.contract.major)
  }

  /** The diagnostic names something that is really wrong. */
  predicate Violates(d: Diagnostic, cur: Contract, prev: Lock)
  {
    || LockViolates(d, cur, prev)
    || MethodsViolate(d, cur, prev)
    || MessagesViolate(d, cur, prev.contract)
    || EnumsViolate(d, cur, prev.contract)
  }

  // ----- one declaration -----

  method CheckMethod(m: Method, cur: Contract, prev: Lock) returns (r: Option<Rule>)
    ensures r.None? <==> MethodFollows(m, cur, prev)
    ensures r.Some? ==> MethodViolates(r.value, m, cur, prev)
  {
    if exists p :: p in prev.contract.methods && p.name == m.name && p.id != m.id {
      return Some(IpcMethodIdChange);
    }
    if m.id in prev.retiredIds {
      return Some(IpcRetiredId);
    }
    var found := MethodWithId(prev.contract.methods, m.id);
    if found.Some? {
      if found.value.name != m.name { return Some(IpcMethodRename); }
      if !SameSignature(found.value, m) && cur.major == prev.contract.major {
        return Some(IpcBreakingMethod);
      }
    }
    return None;
  }

  method CheckField(cur: Message, f: Field, sameMajor: bool) returns (r: Option<Rule>)
    ensures r.None? <==> FieldFollows(cur, f, sameMajor)
    ensures r.Some? ==> r.value in {IpcFieldType, IpcBreakingField, IpcFieldRetirement}
    ensures r.Some? ==> FieldViolates(r.value, cur, f, sameMajor)
  {
    var found := FieldNumbered(cur.fields, f.number);
    if found.Some? {
      if !SameWire(found.value, f) { return Some(IpcFieldType); }
      if !SameApi(found.value, f) && sameMajor { return Some(IpcBreakingField); }
    } else if !InHalfOpen(cur.reserved, f.number) || f.name !in cur.reservedNames {
      return Some(IpcFieldRetirement);
    }
    return None;
  }

  method CheckMessage(cur: Message, prev: Message, sameMajor: bool) returns (r: Option<Rule>)
    ensures r.None? <==> MessageFollows(cur, prev, sameMajor)
    ensures r.Some? ==> MessageViolates(r.value, cur, prev, sameMajor)
  {
    for i := 0 to |prev.fields|
      invariant forall k :: 0 <= k < i ==> FieldFollows(cur, prev.fields[k], sameMajor)
    {
      r := CheckField(cur, prev.fields[i], sameMajor);
      if r.Some? { return; }
    }
    for i := 0 to |cur.fields|
      invariant forall k :: 0 <= k < i ==>
                  !InHalfOpen(prev.reserved, cur.fields[k].number) && cur.fields[k].name !in prev.reservedNames
    {
      var g := cur.fields[i];
      if InHalfOpen(prev.reserved, g.number) || g.name in prev.reservedNames {
        return Some(IpcRetiredField);
      }
    }
    for i := 0 to |prev.reserved|
      invariant forall k :: 0 <= k < i ==> Covers(cur.reserved, prev.reserved[k])
    {
      if !Covers(cur.reserved, prev.reserved[i]) { return Some(IpcReservationHistory); }
    }
    if exists n :: n in prev.reservedNames && n !in cur.reservedNames {
      return Some(IpcReservationHistory);
    }
    return None;
  }

  method CheckEnum(cur: Enumeration, prev: Enumeration) returns (r: Option<Rule>)
    ensures r.None? <==> EnumFollows(cur, prev)
    ensures r.Some? ==> EnumViolates(r.value, cur, prev)
  {
    var todo := prev.values.Keys;
    while todo != {}
      invariant todo <= prev.values.Keys
      invariant forall n :: n in prev.values && n !in todo ==>
                  if n in cur.values then cur.values[n] == prev.values[n]
                  else n in cur.reservedNames && InClosed(cur.reserved, prev.values[n])
    {
      var n :| n in todo;
      if n in cur.values {
        if cur.values[n] != prev.values[n] { return Some(IpcEnumNumber); }
      } else if n !in cur.reservedNames || !InClosed(cur.reserved, prev.values[n]) {
        return Some(IpcEnumRetirement);
      }
      todo := todo - {n};
    }
    todo := cur.values.Keys;
    while todo != {}
      invariant todo <= cur.values.Keys
      invariant forall n :: n in cur.values && n !in todo ==>
                  n !in prev.reservedNames && !InClosed(prev.reserved, cur.values[n])
    {
      var n :| n in todo;
      if n in prev.reservedNames || InClosed(prev.reserved, cur.values[n]) {
        return Some(IpcRetiredEnum);
      }
      todo := todo - {n};
    }
    if (exists n :: n in prev.reservedNames && n !in cur.reservedNames)
       || (exists r :: r in prev.reserved && !Covers(cur.reserved, r)) {
      return Some(IpcReservationHistory);
    }
    return None;
  }

  // ----- one contract -----

  method CheckMethods(cur: Contract, prev: Lock) returns (r: Option<Diagnostic>)
    ensures r.None? <==> forall m :: m in cur.methods ==> MethodFollows(m, cur, prev)
    ensures r.Some? ==> MethodsViolate(r.value, cur, prev)
  {
    for i := 0 to |cur.methods|
      invariant forall k :: 0 <= k < i ==> MethodFollows(cur.methods[k], cur, prev)
    {
      var rule := CheckMethod(cur.methods[i], cur, prev);
      if rule.Some? { return Some(Diagnostic(rule.value, cur.methods[i].name)); }
    }
    return None;
  }

  method CheckMessages(cur: Contract, prev: Contract) returns (r: Option<Diagnostic>)
    ensures r.None? <==> MessagesFollow(cur, prev)
    ensures r.Some? ==> MessagesViolate(r.value, cur, prev)
  {
    for i := 0 to |prev.messages|
      invariant forall k :: 0 <= k < i && MessageNamed(cur, prev.messages[k].name).Some? ==>
                  MessageFollows(MessageNamed(cur, prev.messages[k].name).value, prev.messages[k], cur.major == prev.major)
    {
      var found := MessageNamed(cur, prev.messages[i].name);
      if found.Some? {
        var rule := CheckMessage(found.value, prev.messages[i], cur.major == prev.major);
        if rule.Some? { return Some(Diagnostic(rule.value, found.value.name)); }
      }
    }
    return None;
  }

  method CheckEnums(cur: Contract, prev: Contract) returns (r: Option<Diagnostic>)
    ensures r.None? <==> EnumsFollow(cur, prev)
    ensures r.Some? ==> EnumsViolate(r.value, cur, prev)
  {
    for i := 0 to |prev.enums|
      invariant forall k :: 0 <= k < i && EnumNamed(cur, prev.enums[k].name).Some? ==>
                  EnumFollows(EnumNamed(cur, prev.enums[k].name).value, prev.enums[k])
    {
      var found := EnumNamed(cur, prev.enums[i].name);
      if found.Some? {
        var rule := CheckEnum(found.value, prev.enums[i]);
        if rule.Some? { return Some(Diagnostic(rule.value, found.value.name)); }
      }
    }
    return None;
  }

  method RetireIds(cur: Contract, prev: Lock) returns (retired: set<u32>)
    ensures retired == NextRetired(cur, prev)
  {
    retired := prev.retiredIds;
    var was := prev.contract.methods;
    for i := 0 to |was|
      invariant retired == prev.retiredIds + ((set k | 0 <= k < i :: was[k].id) - Ids(cur))
    {
      if MethodWithId(cur.methods, was[i].id).None? {
        retired := retired + {was[i].id};
      }
    }
    assert (set k | 0 <= k < |was| :: was[k].id) == Ids(prev.contract);
  }

  /** Appends every recorded entry whose name the history does not hold yet. */
  method KeepHistory<T(!new)>(cur: seq<T>, recorded: seq<T>, name: T -> string) returns (history: seq<T>)
    ensures history == Merge(cur, recorded, name)
  {
    history := cur;
    for i := 0 to |recorded|
      invariant Merge(history, recorded[i..], name) == Merge(cur, recorded, name)
    {
      if Find(history, name, name(recorded[i])).None? {
        history := history + [recorded[i]];
      }
    }
  }

  /** `update`: accepts exactly what may follow, records exactly the next lock, blames only what is at fault. */
  method Update(cur: Contract, hash: string, previous: Previous) returns (r: Result<Lock, Diagnostic>)
    ensures previous.Absent? ==> r == Ok(Next(cur, hash, None))
    ensures previous.Unreadable? ==> r == Err(Diagnostic(IpcLock, "compatibility lock"))
    ensures previous.Recorded? ==> (r.Ok? <==> Accepts(cur, previous.lock))
    ensures previous.Recorded? && r.Ok? ==> r.value == Next(cur, hash, Some(previous.lock))
    ensures r.Ok? ==> r.value.format == 1 && r.value.schemaHash == hash && r.value.contract.name == cur.name
                      && r.value.contract.major == cur.major && r.value.contract.methods == cur.methods
    ensures previous.Recorded? && r.Err? ==> Violates(r.error, cur, previous.lock)
  {
    var retired := {};
    var history := cur;
    if previous.Unreadable? {
      return Err(Diagnostic(IpcLock, "compatibility lock"));
    }
    if previous.Recorded? {
      var prev := previous.lock;
      if prev.format != 1 || prev.contract.name != cur.name || cur.major < prev.contract.major {
        return Err(Diagnostic(IpcLockContract, cur.name));
      }
      var fault := CheckMethods(cur, prev);
      if fault.Some? { return Err(fault.value); }
      retired := RetireIds(cur, prev);
      fault := CheckMessages(cur, prev.contract);
      if fault.Some? { return Err(fault.value); }
      fault := CheckEnums(cur, prev.contract);
      if fault.Some? { return Err(fault.value); }
      var messages := KeepHistory(history.messages, prev.contract.messages, MessageName);
      var enums := KeepHistory(history.enums, prev.contract.enums, EnumName);
      history := history.(messages := messages, enums := enums);
    }
    history := history.(messages := Sort(history.messages, MessageName), enums := Sort(history.enums, EnumName));
    r := Ok(Lock(1, hash, history, retired));
  }

  // ----- the diagnostics are sound and complete -----

  lemma {:induction false} MethodRuleExact(m: Method, cur: Contract, prev: Lock)
    ensures MethodFollows(m, cur, prev) <==> forall rule :: !MethodViolates(rule, m, cur, prev)
  {
    if forall rule :: !MethodViolates(rule, m, cur, prev) {
      assert !MethodViolates(IpcMethodIdChange, m, cur, prev);
      assert !MethodViolates(IpcRetiredId, m, cur, prev);
      assert !MethodViolates(IpcMethodRename, m, cur, prev);
      assert !MethodViolates(IpcBreakingMethod, m, cur, prev);
    }
  }

  lemma {:induction false} MessageRuleExact(cur: Message, prev: Message, sameMajor: bool)
    ensures MessageFollows(cur, prev, sameMajor) <==> forall rule :: !MessageViolates(rule, cur, prev, sameMajor)
  {
    if forall rule :: !MessageViolates(rule, cur, prev, sameMajor) {
      assert !MessageViolates(IpcRetiredField, cur, prev, sameMajor);
      assert !MessageViolates(IpcReservationHistory, cur, prev, sameMajor);
      forall f | f in prev.fields ensures FieldFollows(cur, f, sameMajor) {
        assert !MessageViolates(IpcFieldType, cur, prev, sameMajor) && !FieldViolates(IpcFieldType, cur, f, sameMajor);
        assert !MessageViolates(IpcBreakingField, cur, prev, sameMajor) && !FieldViolates(IpcBreakingField, cur, f, sameMajor);
        assert !MessageViolates(IpcFieldRetirement, cur, prev, sameMajor) && !FieldViolates(IpcFieldRetirement, cur, f, sameMajor);
      }
    }
  }

  lemma {:induction false} EnumRuleExact(cur: Enumeration, prev: Enumeration)
    ensures EnumFollows(cur, prev) <==> forall rule :: !EnumViolates(rule, cur, prev)
  {
    if forall rule :: !EnumViolates(rule, cur, prev) {
      assert !EnumViolates(IpcEnumNumber, cur, prev);
      assert !EnumViolates(IpcEnumRetirement, cur, prev);
      assert !EnumViolates(IpcRetiredEnum, cur, prev);
      assert !EnumViolates(IpcReservationHistory, cur, prev);
    }
  }

  /** A contract is accepted exactly when no diagnostic applies to it. */
  lemma {:induction false} RejectedExactly(cur: Contract, prev: Lock)
    ensures Accepts(cur, prev) <==> forall d :: !Violates(d, cur, prev)
  {
    if Accepts(cur, prev) {
      forall d ensures !Violates(d, cur, prev) {
        forall m | m in cur.methods ensures !MethodViolates(d.rule, m, cur, prev) {
          MethodRuleExact(m, cur, prev);
        }
        forall p | p in prev.contract.messages && MessageNamed(cur, p.name).Some?
          ensures !MessageViolates(d.rule, MessageNamed(cur, p.name).value, p, cur.major == prev.contract.major)
        {
          MessageRuleExact(MessageNamed(cur, p.name).value, p, cur.major == prev.contract.major);
        }
        forall p | p in prev.contract.enums && EnumNamed(cur, p.name).Some?
          ensures !EnumViolates(d.rule, EnumNamed(cur, p.name).value, p)
        {
          EnumRuleExact(EnumNamed(cur, p.name).value, p);
        }
      }
    } else {
      Blamed(cur, prev);
    }
  }

  lemma {:induction false} Blamed(cur: Contract, prev: Lock)
    requires !Accepts(cur, prev)
    ensures exists d :: Violates(d, cur, prev)
  {
    if prev.format != 1 || prev.contract.name != cur.name || cur.major < prev.contract.major {
      assert Violates(Diagnostic(IpcLockContract, cur.name), cur, prev);
    } else if m :| m in cur.methods && !MethodFollows(m, cur, prev) {
      MethodRuleExact(m, cur, prev);
      var rule :| MethodViolates(rule, m, cur, prev);
      assert Violates(Diagnostic(rule, m.name), cur, prev);
    } else if !MessagesFollow(cur, prev.contract) {
      var p :| p in prev.contract.messages && MessageNamed(cur, p.name).Some?
        && !MessageFollows(MessageNamed(cur, p.name).value, p, cur.major == prev.contract.major);
      MessageRuleExact(MessageNamed(cur, p.name).value, p, cur.major == prev.contract.major);
      var rule :| MessageViolates(rule, MessageNamed(cur, p.name).value, p, cur.major == prev.contract.major);
      assert Violates(Diagnostic(rule, p.name), cur, prev);
    } else {
      var p :| p in prev.contract.enums && EnumNamed(cur, p.name).Some?
        && !EnumFollows(EnumNamed(cur, p.name).value, p);
      EnumRuleExact(EnumNamed(cur, p.name).value, p);
      var rule :| EnumViolates(rule, EnumNamed(cur, p.name).value, p);
      assert Violates(Diagnostic(rule, p.name), cur, prev);
    }
  }
}
