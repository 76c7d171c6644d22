/**
 Reference-counted grants of frame origins: the locked sections, the object, and what
 holds under any order of grants, drops, host retirement and close.
 */
module FramePolicy {
  import opened Common
  import opened FrameOrigin

  const MAX_FRAME_GRANTS: nat := 32

  datatype Entry = Entry(origin: string, count: nat)

  datatype Grants = Grants(entries: seq<Entry>, closed: bool)

  datatype GrantError = Retired | Capacity

  /** `iter().position(|(entry, _)| *entry == origin)` */
  function Position(entries: seq<Entry>, origin: string): (r: Option<nat>)
    ensures match r
            case Some(i) => i < |entries| && entries[i].origin == origin
            case None => forall k :: 0 <= k < |entries| ==> entries[k].origin != origin
  {
    if entries == [] then None
    else if entries[0].origin == origin then Some(0)
    else match Position(entries[1..], origin)
      case None => None
      case Some(i) => Some(i + 1)
  }

  /** `seen` is what `is_active` answered before the lock was taken. */
  function GrantLocked(g: Grants, origin: string, seen: bool): Result<Grants, GrantError>
  {
    if !seen || g.closed then Err(Retired)
    else match Position(g.entries, origin)
      case Some(i) =>
        if g.entries[i].count == U64_MAX then Err(Capacity)
        else Ok(g.(entries := g.entries[i := Entry(origin, g.entries[i].count + 1)]))
      case None =>
        if |g.entries| >= MAX_FRAME_GRANTS then Err(Capacity)
        else Ok(g.(entries := g.entries + [Entry(origin, 1)]))
  }

  /** `Vec::swap_remove` */
  function SwapRemove(entries: seq<Entry>, i: nat): seq<Entry>
    requires i < |entries|
  {
    entries[i := entries[|entries| - 1]][..|entries| - 1]
  }

  function DropLocked(g: Grants, origin: string): Grants
  {
    match Position(g.entries, origin)
    case None => g
    case Some(i) =>
      if g.entries[i].count == 1 then g.(entries := SwapRemove(g.entries, i))
      else if g.entries[i].count == 0 then g
      else g.(entries := g.entries[i := Entry(origin, g.entries[i].count - 1)])
  }

  function CloseLocked(g: Grants): Grants
  {
    Grants([], true)
  }

  predicate EntriesAllow(g: Grants, url: string)
  {
    !g.closed && exists i :: 0 <= i < |g.entries| && Allows(g.entries[i].origin, url)
  }

  predicate Distinct(entries: seq<Entry>)
  {
    forall i, j :: 0 <= i < j < |entries| ==> entries[i].origin != entries[j].origin
  }

  /** Distinct origins, positive counts that fit their type, at most 32 entries, none once closed. */
  predicate GrantsInv(g: Grants)
  {
    && Distinct(g.entries) && |g.entries| <= MAX_FRAME_GRANTS
    && (forall i :: 0 <= i < |g.entries| ==> 1 <= g.entries[i].count <= U64_MAX)
    && (g.closed ==> g.entries == [])
  }

  // ----- the object -----

  class FramePolicy {
    var entries: seq<Entry>
    var closed: bool

    function View(): (g: Grants)
      reads this
    {
      Grants(entries, closed)
    }

    constructor ()
      ensures View() == Grants([], false) && GrantsInv(View())
    {
      entries, closed := [], false;
    }

    method Grant(origin: string, seen: bool) returns (r: Result<(), GrantError>)
      requires GrantsInv(View())
      modifies this`entries
      ensures GrantsInv(View())
      ensures match GrantLocked(old(View()), origin, seen)
              case Ok(g) => r.Ok? && View() == g
              case Err(e) => r == Err(e) && View() == old(View())
    {
      if !seen || closed { return Err(Retired); }
      var index := Position(entries, origin);
      if index.Some? {
        var i := index.value;
        if entries[i].count == U64_MAX { return Err(Capacity); }
        entries := entries[i := entries[i].(count := entries[i].count + 1)];
      } else {
        if |entries| >= MAX_FRAME_GRANTS { return Err(Capacity); }
        entries := entries + [Entry(origin, 1)];
      }
      return Ok(());
    }

    method DropGrant(origin: string)
      requires GrantsInv(View())
      modifies this`entries
      ensures View() == DropLocked(old(View()), origin) && GrantsInv(View())
    {
      var index := Position(entries, origin);
      if index.Some? {
        var i := index.value;
        if entries[i].count == 1 {
          entries := entries[i := entries[|entries| - 1]];
          entries := entries[..|entries| - 1];
        } else {
          entries := entries[i := entries[i].(count := entries[i].count - 1)];
        }
      }
    }

    method Close()
      modifies this
      ensures View() == CloseLocked(old(View())) && GrantsInv(View())
    {
      closed := true;
      entries := [];
    }

    method AllowsUrl(url: string, seen: bool) returns (ok: bool)
      ensures ok <==> seen && EntriesAllow(View(), url)
    {
      if !seen || closed { return false; }
      for i := 0 to |entries|
        invariant forall k :: 0 <= k < i ==> !Allows(entries[k].origin, url)
      {
        if Allows(entries[i].origin, url) { return true; }
      }
      return false;
    }
  }

  // ----- any order of steps -----

  /** `live` holds one copy of the origin for every grant the host still keeps. */
  datatype World = World(hostActive: bool, g: Grants, live: multiset<string>)

  const INIT := World(true, Grants([], false), multiset{})

  datatype Step =
    | Revoke
    | Grant(host: string, port: u16, seen: bool)
    | DropGrant(origin: string)
    | Close

  /** A retired host may still be seen as active by a thread that looked earlier; never the reverse. */
  predicate Enabled(w: World, s: Step)
  {
    match s
    case Grant(host, port, seen) => FromLocalhostSubdomain(host, port).Some? && (w.hostActive ==> seen)
    case DropGrant(origin) => origin in w.live
    case _ => true
  }

  function ApplyGrant(w: World, origin: string, seen: bool): World
  {
    match GrantLocked(w.g, origin, seen)
    case Ok(g) => w.(g := g, live := w.live + multiset{origin})
    case Err(_) => w
  }

  function ApplyDrop(w: World, origin: string): World
  {
    w.(g := DropLocked(w.g, origin), live := w.live - multiset{origin})
  }

  function Apply(w: World, s: Step): World
    requires Enabled(w, s)
  {
    match s
    case Revoke => w.(hostActive := false)
    case Grant(host, port, seen) => ApplyGrant(w, OriginText(host, port), seen)
    case DropGrant(origin) => ApplyDrop(w, origin)
    case Close => w.(g := CloseLocked(w.g))
  }

  predicate Valid(w: World, run: seq<Step>)
    decreases |run|
  {
    run == [] || (Enabled(w, run[0]) && Valid(Apply(w, run[0]), run[1..]))
  }

  function Exec(w: World, run: seq<Step>): World
    requires Valid(w, run)
    decreases |run|
  {
    if run == [] then w else Exec(Apply(w, run[0]), run[1..])
  }

  function CountOf(entries: seq<Entry>, origin: string): nat
  {
    match Position(entries, origin)
    case None => 0
    case Some(i) => entries[i].count
  }

  ghost predicate Inv(w: World)
  {
    && GrantsInv(w.g)
    && (forall o :: o in w.live ==> IsOrigin(o))
    && (!w.g.closed ==> forall o :: CountOf(w.g.entries, o) == w.live[o])
  }

  /** With distinct origins a lookup is determined by the entry itself. */
  lemma {:induction false} CountAt(entries: seq<Entry>, i: nat)
    requires Distinct(entries) && i < |entries|
    ensures CountOf(entries, entries[i].origin) == entries[i].count
  {
    var p := Position(entries, entries[i].origin).value;
    assert p == i;
  }

  lemma {:induction false} CountNowhere(entries: seq<Entry>, origin: string)
    requires forall k :: 0 <= k < |entries| ==> entries[k].origin != origin
    ensures CountOf(entries, origin) == 0
  {
  }

  lemma {:induction false} Recount(entries: seq<Entry>, i: nat, count: nat, o: string)
    requires Distinct(entries) && i < |entries|
    ensures Distinct(entries[i := Entry(entries[i].origin, count)])
    ensures CountOf(entries[i := Entry(entries[i].origin, count)], o)
         == if o == entries[i].origin then count else CountOf(entries, o)
  {
    var next := entries[i := Entry(entries[i].origin, count)];
    assert Distinct(next);
    match Position(entries, o)
    case Some(p) => CountAt(next, p); assert next[p].origin == o;
    case None => CountNowhere(next, o);
  }

  lemma {:induction false} Appended(entries: seq<Entry>, e: Entry, o: string)
    requires Distinct(entries) && Position(entries, e.origin).None?
    ensures Distinct(entries + [e])
    ensures CountOf(entries + [e], o) == if o == e.origin then e.count else CountOf(entries, o)
  {
    var next := entries + [e];
    assert Distinct(next);
    if o == e.origin {
      CountAt(next, |entries|);
    } else {
      match Position(entries, o)
      case Some(p) => CountAt(next, p); assert next[p] == entries[p];
      case None => CountNowhere(next, o);
    }
  }

  /** Removing by swap loses exactly that entry and moves no count to another origin. */
  lemma {:induction false} SwapRemoved(entries: seq<Entry>, i: nat, o: string)
    requires Distinct(entries) && i < |entries|
    ensures Distinct(SwapRemove(entries, i))
    ensures CountOf(SwapRemove(entries, i), o) == if o == entries[i].origin then 0 else CountOf(entries, o)
  {
    var next := SwapRemove(entries, i);
    var last := |entries| - 1;
    assert forall k :: 0 <= k < |next| ==> next[k] == if k == i then entries[last] else entries[k];
    assert Distinct(next);
    if o == entries[i].origin {
      CountNowhere(next, o);
    } else {
      match Position(entries, o)
      case Some(p) =>
        var q := if p == last then i else p;
        assert next[q] == entries[p];
        CountAt(next, q);
      case None => CountNowhere(next, o);
    }
  }

  lemma {:induction false} SectionsKeepGrantsInv(g: Grants, origin: string, seen: bool)
    requires GrantsInv(g)
    ensures GrantLocked(g, origin, seen).Ok? ==> GrantsInv(GrantLocked(g, origin, seen).value)
    ensures GrantsInv(DropLocked(g, origin))
  {
    match Position(g.entries, origin)
    case Some(i) =>
      Recount(g.entries, i, g.entries[i].count + 1, origin);
      if g.entries[i].count == 1 { SwapRemoved(g.entries, i, origin); }
      else { Recount(g.entries, i, g.entries[i].count - 1, origin); }
    case None =>
      Appended(g.entries, Entry(origin, 1), origin);
  }

  lemma {:induction false} GrantCounts(g: Grants, origin: string, seen: bool, o: string)
    requires GrantsInv(g) && GrantLocked(g, origin, seen).Ok?
    ensures CountOf(GrantLocked(g, origin, seen).value.entries, o)
         == CountOf(g.entries, o) + if o == origin then 1 else 0
  {
    match Position(g.entries, origin)
    case Some(i) => Recount(g.entries, i, g.entries[i].count + 1, o);
    case None => Appended(g.entries, Entry(origin, 1), o);
  }

  lemma {:induction false} DropCounts(g: Grants, origin: string, o: string)
    requires GrantsInv(g) && CountOf(g.entries, origin) > 0
    ensures CountOf(DropLocked(g, origin).entries, o) == CountOf(g.entries, o) - if o == origin then 1 else 0
  {
    var i := Position(g.entries, origin).value;
    if g.entries[i].count == 1 { SwapRemoved(g.entries, i, o); }
    else { Recount(g.entries, i, g.entries[i].count - 1, o); }
  }

  lemma {:induction false} GrantKeepsInv(w: World, origin: string, seen: bool)
    requires Inv(w) && IsOrigin(origin)
    ensures Inv(ApplyGrant(w, origin, seen))
  {
    if GrantLocked(w.g, origin, seen).Ok? {
      SectionsKeepGrantsInv(w.g, origin, seen);
      var next := ApplyGrant(w, origin, seen);
      forall o ensures CountOf(next.g.entries, o) == next.live[o] {
        GrantCounts(w.g, origin, seen, o);
      }
    }
  }

  lemma {:induction false} DropKeepsInv(w: World, origin: string)
    requires Inv(w) && origin in w.live
    ensures Inv(ApplyDrop(w, origin))
  {
    SectionsKeepGrantsInv(w.g, origin, true);
    if !w.g.closed {
      var next := ApplyDrop(w, origin);
      assert CountOf(w.g.entries, origin) == w.live[origin];
      forall o ensures CountOf(next.g.entries, o) == next.live[o] {
        DropCounts(w.g, origin, o);
      }
    }
  }

  lemma {:induction false} StepKeepsInv(w: World, s: Step)
    requires Inv(w) && Enabled(w, s)
    ensures Inv(Apply(w, s))
  {
    match s
    case Revoke =>
    case Grant(host, port, seen) =>
      assert IsOrigin(OriginText(host, port));
      GrantKeepsInv(w, OriginText(host, port), seen);
    case DropGrant(origin) => DropKeepsInv(w, origin);
    case Close =>
  }

  lemma {:induction false} RunKeepsInv(w: World, run: seq<Step>)
    requires Inv(w) && Valid(w, run)
    ensures Inv(Exec(w, run))
    decreases |run|
  {
    if run != [] {
      StepKeepsInv(w, run[0]);
      RunKeepsInv(Apply(w, run[0]), run[1..]);
    }
  }

  /** A grant is given exactly if the host is seen active, the policy is open, and there is room for it. */
  lemma {:induction false} GrantedExactly(g: Grants, origin: string, seen: bool)
    requires GrantsInv(g)
    ensures GrantLocked(g, origin, seen).Ok? <==>
            && seen && !g.closed
            && CountOf(g.entries, origin) < 0xFFFF_FFFF_FFFF_FFFF
            && (CountOf(g.entries, origin) > 0 || |g.entries| < 32)
    ensures !seen || g.closed ==> GrantLocked(g, origin, seen) == Err(Retired)
    ensures seen && !g.closed && GrantLocked(g, origin, seen).Err? ==> GrantLocked(g, origin, seen) == Err(Capacity)
  {
  }

  // ----- main results -----

  ghost predicate Reachable(w: World)
  {
    exists run :: Valid(INIT, run) && w == Exec(INIT, run)
  }

  lemma {:induction false} ReachableInv(w: World)
    requires Reachable(w)
    ensures Inv(w)
  {
    var run :| Valid(INIT, run) && w == Exec(INIT, run);
    RunKeepsInv(INIT, run);
  }

  /** Until close, each count is the number of live grants of that origin, and the origins are distinct. */
  lemma {:induction false} CountsAreLiveGrants(w: World, origin: string)
    requires Reachable(w)
    ensures Distinct(w.g.entries) && |w.g.entries| <= 32
    ensures !w.g.closed ==> CountOf(w.g.entries, origin) == w.live[origin]
  {
    ReachableInv(w);
  }

  /** After close nothing is granted or allowed again, and a host that retired stays retired. */
  lemma {:induction false} CloseIsFinal(w: World, run: seq<Step>, url: string)
    requires Valid(Apply(w, Close), run)
    ensures var v := Exec(Apply(w, Close), run);
            v.g == Grants([], true) && !EntriesAllow(v.g, url) && v.live <= w.live
  {
    ClosedRun(Apply(w, Close), run);
  }

  lemma {:induction false} ClosedRun(w: World, run: seq<Step>)
    requires Valid(w, run) && w.g == Grants([], true)
    ensures Exec(w, run).g == Grants([], true) && Exec(w, run).live <= w.live
    decreases |run|
  {
    if run != [] { ClosedRun(Apply(w, run[0]), run[1..]); }
  }

  lemma {:induction false} RetiredIsFinal(w: World, run: seq<Step>)
    requires Valid(Apply(w, Revoke), run)
    ensures !Exec(Apply(w, Revoke), run).hostActive
  {
    RetiredRun(Apply(w, Revoke), run);
  }

  lemma {:induction false} RetiredRun(w: World, run: seq<Step>)
    requires Valid(w, run) && !w.hostActive
    ensures !Exec(w, run).hostActive
    decreases |run|
  {
    if run != [] { RetiredRun(Apply(w, run[0]), run[1..]); }
  }

  /** While the host is active, a grant is refused only for lack of room or after close. */
  lemma {:induction false} ActiveHostIsServed(w: World, host: string, port: u16, seen: bool)
    requires Inv(w) && w.hostActive && !w.g.closed && Enabled(w, Grant(host, port, seen))
    requires w.live[OriginText(host, port)] < 0xFFFF_FFFF_FFFF_FFFF
    requires w.live[OriginText(host, port)] > 0 || |w.g.entries| < 32
    ensures Apply(w, Grant(host, port, seen)).live == w.live + multiset{OriginText(host, port)}
  {
    GrantedExactly(w.g, OriginText(host, port), seen);
  }

  /** `FramePolicy::allows`, where `seen` is whether the host was found active. */
  predicate Allowed(w: World, url: string, seen: bool)
  {
    seen && EntriesAllow(w.g, url)
  }

  /**
   A URL is allowed exactly when the host is seen active, the policy is open, and a live
   grant's origin allows it; and then that origin is the only one that does.
   */
  lemma {:induction false} AllowedExactly(w: World, url: string, seen: bool)
    requires Reachable(w)
    ensures Allowed(w, url, seen) <==> seen && !w.g.closed && exists o :: o in w.live && Allows(o, url)
    ensures forall a, b :: a in w.live && b in w.live && Allows(a, url) && Allows(b, url) ==> a == b
  {
    ReachableInv(w);
    if EntriesAllow(w.g, url) {
      var i :| 0 <= i < |w.g.entries| && Allows(w.g.entries[i].origin, url);
      CountAt(w.g.entries, i);
      assert w.g.entries[i].origin in w.live;
    }
    if o :| !w.g.closed && o in w.live && Allows(o, url) {
      assert CountOf(w.g.entries, o) == w.live[o];
      var i := Position(w.g.entries, o).value;
      assert Allows(w.g.entries[i].origin, url);
    }
    forall a, b | a in w.live && b in w.live && Allows(a, url) && Allows(b, url) ensures a == b {
      AtMostOneOrigin(a, b, url);
    }
  }
}
