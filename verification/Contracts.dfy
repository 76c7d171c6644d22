/** The schema types recorded in the IPC lock, and what protoc guarantees of one contract. */
module Contracts {
  import opened Common
  import opened Named

  datatype Method = Method(
    id: u32, name: string, service: string, receiver: string, kind: string,
    developmentOnly: bool, input: string, output: string)

  datatype Field = Field(
    number: u32, name: string, kind: string, target: Option<string>,
    repeated: bool, packed: bool, optional: bool, oneof: Option<string>,
    map_: bool, mapKey: bool)

  datatype Message = Message(
    name: string, file: string, rust: string, ts: string, mapEntry: bool,
    fields: seq<Field>, reserved: seq<(int, int)>, reservedNames: seq<string>)

  datatype Enumeration = Enumeration(
    name: string, values: map<string, int>,
    reserved: seq<(int, int)>, reservedNames: seq<string>)

  datatype Contract = Contract(
    name: string, major: u32,
    methods: seq<Method>, messages: seq<Message>, enums: seq<Enumeration>)

  function MessageName(m: Message): string { m.name }
  function EnumName(e: Enumeration): string { e.name }

  /** A message reservation `[start, end)` covers the number. */
  predicate InHalfOpen(reserved: seq<(int, int)>, n: int)
  {
    exists r :: r in reserved && r.0 <= n < r.1
  }

  /** An enum reservation `[start, end]` covers the number. */
  predicate InClosed(reserved: seq<(int, int)>, n: int)
  {
    exists r :: r in reserved && r.0 <= n <= r.1
  }

  /** Some single current range contains the previous one; the test is the same for both kinds of range. */
  predicate Covers(reserved: seq<(int, int)>, prev: (int, int))
  {
    exists r :: r in reserved && r.0 <= prev.0 && prev.1 <= r.1
  }

  /** `fields.iter().find(|f| f.number == n)` */
  function FieldNumbered(fields: seq<Field>, n: u32): (r: Option<Field>)
    ensures r.Some? ==> r.value in fields && r.value.number == n
    ensures r.None? <==> forall f :: f in fields ==> f.number != n
  {
    if fields == [] then None
    else if fields[0].number == n then Some(fields[0])
    else FieldNumbered(fields[1..], n)
  }

  /** `methods.iter().find(|m| m.id == id)` */
  function MethodWithId(methods: seq<Method>, id: u32): (r: Option<Method>)
    ensures r.Some? ==> r.value in methods && r.value.id == id
    ensures r.None? <==> forall m :: m in methods ==> m.id != id
  {
    if methods == [] then None
    else if methods[0].id == id then Some(methods[0])
    else MethodWithId(methods[1..], id)
  }

  /** Field numbers are unique and no field sits in its message's own reservations. */
  predicate WellFormedMessage(m: Message)
  {
    && (forall f, g :: f in m.fields && g in m.fields && f.number == g.number ==> f == g)
    && (forall f :: f in m.fields ==> !InHalfOpen(m.reserved, f.number) && f.name !in m.reservedNames)
  }

  /** Value names are unique (a map) and no value sits in its enum's own reservations. */
  predicate WellFormedEnum(e: Enumeration)
  {
    forall n :: n in e.values ==> n !in e.reservedNames && !InClosed(e.reserved, e.values[n])
  }

  predicate WellFormed(c: Contract)
  {
    && (forall m, k :: m in c.methods && k in c.methods && (m.id == k.id || m.name == k.name) ==> m == k)
    && UniqueNames(c.messages, MessageName)
    && UniqueNames(c.enums, EnumName)
    && (forall m :: m in c.messages ==> WellFormedMessage(m))
    && (forall e :: e in c.enums ==> WellFormedEnum(e))
  }

  function MessageNamed(c: Contract, n: string): Option<Message>
  {
    Find(c.messages, MessageName, n)
  }

  function EnumNamed(c: Contract, n: string): Option<Enumeration>
  {
    Find(c.enums, EnumName, n)
  }

  function Ids(c: Contract): set<u32>
  {
    set m | m in c.methods :: m.id
  }
}
