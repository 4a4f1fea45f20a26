/** The server's table of logged-in users: 64 slots that refine a partial map of capacity 64. */
module Registry {
  import opened Bytes

  const CAPACITY := 64

  datatype Slot = Slot(inUse: bool, name: seq<byte>, key: seq<byte>, stream: Option<nat>)

  /** What the table knows about a name. */
  datatype Listing = Listing(key: seq<byte>, stream: Option<nat>)

  type View = map<seq<byte>, Listing>

  function Cleared(): Slot { Slot(false, [], [], None) }

  /** In-use names are pairwise different. */
  predicate Distinct(s: seq<Slot>) {
    forall i, j | 0 <= i < j < |s| && s[i].inUse && s[j].inUse :: s[i].name != s[j].name
  }

  /** The first in-use slot that holds `name`, or `|s|`. */
  function Lookup(s: seq<Slot>, name: seq<byte>): (i: nat)
    ensures i <= |s|
    ensures i < |s| ==> s[i].inUse && s[i].name == name
    ensures forall j | 0 <= j < i :: !(s[j].inUse && s[j].name == name)
  {
    if s == [] then 0
    else if s[0].inUse && s[0].name == name then 0
    else 1 + Lookup(s[1..], name)
  }

  function FirstFree(s: seq<Slot>): (i: nat)
    ensures i <= |s|
    ensures i < |s| ==> !s[i].inUse
    ensures forall j | 0 <= j < i :: s[j].inUse
  {
    if s == [] then 0 else if !s[0].inUse then 0 else 1 + FirstFree(s[1..])
  }

  /** The table as a map. */
  ghost function ViewOf(s: seq<Slot>): View
    requires Distinct(s)
  {
    map i | 0 <= i < |s| && s[i].inUse :: s[i].name := Listing(s[i].key, s[i].stream)
  }

  lemma ViewAt(s: seq<Slot>, name: seq<byte>)
    requires Distinct(s)
    ensures name in ViewOf(s) <==> Lookup(s, name) < |s|
    ensures name in ViewOf(s) ==>
              var i := Lookup(s, name); ViewOf(s)[name] == Listing(s[i].key, s[i].stream)
  {
    var i := Lookup(s, name);
    if i < |s| {
      assert s[i].name in ViewOf(s);
    }
  }

  ghost function NamesOf(s: seq<Slot>): set<seq<byte>> {
    set i | 0 <= i < |s| && s[i].inUse :: s[i].name
  }

  lemma NamesSplit(s: seq<Slot>)
    requires Distinct(s) && s != []
    ensures Distinct(s[1..])
    ensures NamesOf(s) == (if s[0].inUse then {s[0].name} else {}) + NamesOf(s[1..])
    ensures s[0].inUse ==> s[0].name !in NamesOf(s[1..])
  {
    var u := s[1..];
    assert forall i | 0 <= i < |u| :: u[i] == s[i + 1];
    assert forall i | 1 <= i < |s| :: s[i] == u[i - 1];
  }

  /** A table is full as a map exactly when it has no free slot. */
  lemma {:induction false} Occupancy(s: seq<Slot>)
    requires Distinct(s)
    ensures |NamesOf(s)| <= |s|
    ensures |NamesOf(s)| == |s| <==> FirstFree(s) == |s|
  {
    if s != [] {
      hide NamesOf, Distinct;
      NamesSplit(s);
      Occupancy(s[1..]);
    }
  }

  lemma ViewSize(s: seq<Slot>)
    requires Distinct(s)
    ensures |ViewOf(s)| <= |s|
    ensures |ViewOf(s)| == |s| <==> FirstFree(s) == |s|
  {
    assert ViewOf(s).Keys == NamesOf(s);
    Occupancy(s);
  }

  // ---------- the operations on the slots ----------

  function AddSlot(s: seq<Slot>, name: seq<byte>, key: seq<byte>, stream: Option<nat>): Option<seq<Slot>> {
    var free := FirstFree(s);
    if Lookup(s, name) < |s| || free == |s| then None
    else Some(s[free := Slot(true, name, key, stream)])
  }

  function RemoveSlot(s: seq<Slot>, name: seq<byte>): seq<Slot> {
    var i := Lookup(s, name);
    if i < |s| then s[i := Cleared()] else s
  }

  /** In a duplicate-free table the only slot of a name is the one found. */
  lemma OnlySlot(s: seq<Slot>, name: seq<byte>, i: nat)
    requires Distinct(s) && i < |s| && s[i].inUse && s[i].name == name
    ensures Lookup(s, name) == i
  {
  }

  lemma FillRefines(s: seq<Slot>, at: nat, name: seq<byte>, key: seq<byte>, stream: Option<nat>)
    requires Distinct(s) && at < |s| && !s[at].inUse && Lookup(s, name) == |s|
    ensures var t := s[at := Slot(true, name, key, stream)];
            Distinct(t) && ViewOf(t) == ViewOf(s)[name := Listing(key, stream)]
  {
    hide ViewOf, Lookup;
    var t := s[at := Slot(true, name, key, stream)];
    assert Distinct(t);
    forall n
      ensures n in ViewOf(t) <==> n in ViewOf(s) || n == name
      ensures n in ViewOf(t) ==> ViewOf(t)[n] == if n == name then Listing(key, stream) else ViewOf(s)[n]
    {
      hide Distinct;
      ViewAt(t, n);
      ViewAt(s, n);
      if n == name {
        OnlySlot(t, n, at);
      } else if n in ViewOf(s) {
        OnlySlot(t, n, Lookup(s, n));
      } else if n in ViewOf(t) {
        OnlySlot(s, n, Lookup(t, n));
      }
    }
  }

  /** Add succeeds exactly when the name is absent and a slot is free, holes before a duplicate or not. */
  lemma {:induction false} AddRefines(s: seq<Slot>, name: seq<byte>, key: seq<byte>, stream: Option<nat>)
    requires Distinct(s)
    ensures AddSlot(s, name, key, stream).Some? <==> name !in ViewOf(s) && |ViewOf(s)| < |s|
    ensures AddSlot(s, name, key, stream).Some? ==>
              var t := AddSlot(s, name, key, stream).value;
              |t| == |s| && Distinct(t) && ViewOf(t) == ViewOf(s)[name := Listing(key, stream)]
  {
    ViewAt(s, name);
    ViewSize(s);
    if AddSlot(s, name, key, stream).Some? {
      FillRefines(s, FirstFree(s), name, key, stream);
    }
  }

  /** Remove deletes exactly one key. */
  lemma RemoveRefines(s: seq<Slot>, name: seq<byte>)
    requires Distinct(s)
    ensures var t := RemoveSlot(s, name);
            |t| == |s| && Distinct(t) && ViewOf(t) == ViewOf(s) - {name}
  {
    hide ViewOf, Lookup;
    var t := RemoveSlot(s, name);
    assert Distinct(t);
    forall n
      ensures n in ViewOf(t) <==> n in ViewOf(s) && n != name
      ensures n in ViewOf(t) ==> ViewOf(t)[n] == ViewOf(s)[n]
    {
      hide Distinct;
      ViewAt(t, n);
      ViewAt(s, n);
      if n in ViewOf(t) {
        OnlySlot(s, n, Lookup(t, n));
      } else if n in ViewOf(s) && n != name {
        OnlySlot(t, n, Lookup(s, n));
      }
    }
  }

  // ---------- any sequence of operations ----------

  datatype Op = Add(name: seq<byte>, key: seq<byte>, stream: Option<nat>) | Remove(name: seq<byte>)

  function RunSlots(s: seq<Slot>, ops: seq<Op>): seq<Slot>
    decreases |ops|
  {
    if ops == [] then s
    else match ops[0]
      case Add(name, key, stream) =>
        var r := AddSlot(s, name, key, stream);
        RunSlots(if r.Some? then r.value else s, ops[1..])
      case Remove(name) => RunSlots(RemoveSlot(s, name), ops[1..])
  }

  /** The same operations on a map that holds at most `capacity` names. */
  function RunMap(m: View, capacity: nat, ops: seq<Op>): View
    decreases |ops|
  {
    if ops == [] then m
    else match ops[0]
      case Add(name, key, stream) =>
        RunMap(if name !in m && |m| < capacity then m[name := Listing(key, stream)] else m, capacity, ops[1..])
      case Remove(name) => RunMap(m - {name}, capacity, ops[1..])
  }

  /** After any sequence of operations the slots are duplicate-free and are the bounded map. */
  lemma {:induction false} TableRefinesMap(s: seq<Slot>, ops: seq<Op>)
    requires Distinct(s)
    ensures var t := RunSlots(s, ops);
            |t| == |s| && Distinct(t) && ViewOf(t) == RunMap(ViewOf(s), |s|, ops)
    decreases |ops|
  {
    if ops == [] {
    } else {
      match ops[0]
      case Add(name, key, stream) =>
        AddRefines(s, name, key, stream);
        var r := AddSlot(s, name, key, stream);
        TableRefinesMap(if r.Some? then r.value else s, ops[1..]);
      case Remove(name) =>
        RemoveRefines(s, name);
        TableRefinesMap(RemoveSlot(s, name), ops[1..]);
    }
  }

  /** `names` are all those listed with a stream, each once, and `targets` their streams. */
  predicate OneEach(m: View, names: seq<seq<byte>>, targets: seq<nat>) {
    && |names| == |targets| && NoDup(names)
    && (forall i | 0 <= i < |targets| :: names[i] in m && m[names[i]].stream == Some(targets[i]))
    && (forall n | n in m && m[n].stream.Some? :: n in names)
  }

  // ---------- the table in place ----------

  lemma LookupIs(s: seq<Slot>, name: seq<byte>, i: nat)
    requires i < |s| && s[i].inUse && s[i].name == name
    requires forall j | 0 <= j < i :: !(s[j].inUse && s[j].name == name)
    ensures Lookup(s, name) == i
  {
  }

  lemma LookupNone(s: seq<Slot>, name: seq<byte>)
    requires forall j | 0 <= j < |s| :: !(s[j].inUse && s[j].name == name)
    ensures Lookup(s, name) == |s|
  {
  }

  lemma FirstFreeIs(s: seq<Slot>, i: nat)
    requires i <= |s| && (i < |s| ==> !s[i].inUse)
    requires forall j | 0 <= j < i :: s[j].inUse
    ensures FirstFree(s) == i
  {
  }

  class Table {
    const slots: array<Slot>

    ghost predicate Valid()
      reads slots
    {
      slots.Length == CAPACITY && Distinct(slots[..])
    }

    ghost function Contents(): View
      requires Valid()
      reads slots
    {
      ViewOf(slots[..])
    }

    constructor ()
      ensures Valid() && fresh(slots) && Contents() == map[]
    {
      slots := new Slot[CAPACITY](_ => Cleared());
    }

    method Add(name: seq<byte>, key: seq<byte>, stream: Option<nat>) returns (ok: bool)
      requires Valid()
      modifies slots
      ensures Valid()
      ensures ok <==> name !in old(Contents()) && |old(Contents())| < 64
      ensures Contents() == if ok then old(Contents())[name := Listing(key, stream)] else old(Contents())
    {
      AddRefines(slots[..], name, key, stream);
      var slot, duplicate := ScanForAdd(name);
      if duplicate || slot < 0 { return false; }
      slots[slot] := Slot(true, name, key, stream);
      assert slots[..] == old(slots[..])[slot := Slot(true, name, key, stream)];
      return true;
    }

    /** Add's loop: remembers the first free slot, stops at a duplicate even behind a hole. */
    method ScanForAdd(name: seq<byte>) returns (slot: int, duplicate: bool)
      requires Valid()
      ensures duplicate <==> Lookup(slots[..], name) < CAPACITY
      ensures !duplicate ==> -1 <= slot < CAPACITY
      ensures !duplicate ==> FirstFree(slots[..]) == if slot < 0 then CAPACITY else slot
    {
      slot := -1;
      for i := 0 to slots.Length
        invariant -1 <= slot < i
        invariant forall j | 0 <= j < i :: !(slots[j].inUse && slots[j].name == name)
        invariant slot == -1 ==> forall j | 0 <= j < i :: slots[j].inUse
        invariant slot >= 0 ==> !slots[slot].inUse && forall j | 0 <= j < slot :: slots[j].inUse
      {
        if !slots[i].inUse {
          if slot < 0 { slot := i; }
          continue;
        }
        if slots[i].name == name {
          LookupIs(slots[..], name, i);
          return slot, true;
        }
      }
      LookupNone(slots[..], name);
      FirstFreeIs(slots[..], if slot < 0 then slots.Length else slot);
      return slot, false;
    }

    method Remove(name: seq<byte>)
      requires Valid()
      modifies slots
      ensures Valid()
      ensures Contents() == old(Contents()) - {name}
    {
      RemoveRefines(slots[..], name);
      var i := Scan(name);
      if i < slots.Length {
        slots[i] := Cleared();
        assert slots[..] == old(slots[..])[i := Cleared()];
      }
    }

    /** The loop shared by remove, find and get_pubkey: stop at the first in-use slot with that name. */
    method Scan(name: seq<byte>) returns (at: nat)
      requires Valid()
      ensures at == Lookup(slots[..], name)
    {
      for i := 0 to slots.Length
        invariant forall j | 0 <= j < i :: !(slots[j].inUse && slots[j].name == name)
      {
        if slots[i].inUse && slots[i].name == name {
          LookupIs(slots[..], name, i);
          return i;
        }
      }
      LookupNone(slots[..], name);
      return slots.Length;
    }

    /** The user's stream; a listing without one looks the same as no listing. */
    method Find(name: seq<byte>) returns (stream: Option<nat>)
      requires Valid()
      ensures stream == if name in Contents() then Contents()[name].stream else None
    {
      ViewAt(slots[..], name);
      var i := Scan(name);
      stream := if i < slots.Length then slots[i].stream else None;
    }

    method GetPubkey(name: seq<byte>) returns (key: Option<seq<byte>>)
      requires Valid()
      ensures key == if name in Contents() then Some(Contents()[name].key) else None
    {
      ViewAt(slots[..], name);
      var i := Scan(name);
      key := if i < slots.Length then Some(slots[i].key) else None;
    }

    /** A shutdown sends one BYE for each listing that has a stream, and no other. */
    method ByeTargets() returns (targets: seq<nat>)
      requires Valid()
      ensures exists names :: OneEach(Contents(), names, targets)
    {
      hide OneEach, ViewOf;
      targets := [];
      ghost var at: seq<nat> := [];
      for i := 0 to slots.Length
        invariant |at| == |targets|
        invariant forall j | 0 <= j < |at| :: at[j] < i && slots[at[j]].inUse && slots[at[j]].stream == Some(targets[j])
        invariant forall j, j' | 0 <= j < j' < |at| :: at[j] < at[j']
        invariant forall s | 0 <= s < i && slots[s].inUse && slots[s].stream.Some? :: s in at
      {
        if slots[i].inUse && slots[i].stream.Some? {
          targets := targets + [slots[i].stream.value];
          at := at + [i];
        }
      }
      ghost var names := NamesAt(slots[..], at, targets);
      assert OneEach(Contents(), names, targets);
    }
  }

  /** The names in the slots that were visited. */
  lemma NamesAt(s: seq<Slot>, at: seq<nat>, targets: seq<nat>) returns (names: seq<seq<byte>>)
    requires Distinct(s) && |at| == |targets|
    requires forall j | 0 <= j < |at| :: at[j] < |s| && s[at[j]].inUse && s[at[j]].stream == Some(targets[j])
    requires forall j, j' | 0 <= j < j' < |at| :: at[j] < at[j']
    requires forall i | 0 <= i < |s| && s[i].inUse && s[i].stream.Some? :: i in at
    ensures OneEach(ViewOf(s), names, targets)
  {
    hide ViewOf, Lookup;
    names := seq(|at|, j requires 0 <= j < |at| => s[at[j]].name);
    forall i | 0 <= i < |targets|
      ensures names[i] in ViewOf(s) && ViewOf(s)[names[i]].stream == Some(targets[i])
    {
      ViewAt(s, names[i]);
      OnlySlot(s, names[i], at[i]);
    }
    forall n | n in ViewOf(s) && ViewOf(s)[n].stream.Some?
      ensures n in names
    {
      ViewAt(s, n);
      var j :| 0 <= j < |at| && at[j] == Lookup(s, n);
      assert names[j] == n;
    }
  }
}
