/** Budgeted growing buffers: byteBudget and responseBuffer of
    internal/gateway/resources.go.

    First one buffer over an array, then any number of buffers sharing one
    budget, interleaved at the budget's lock. */
module ResponseBuffer {
  import opened Options

  /** The largest response the gateway buffers (internal/gateway/handler.go). */
  const MAX_BODY := 33554432
  const FIRST_BLOCK := 32768

  class ByteBudget {
    var used: int

    constructor ()
      ensures used == 0
    {
      used := 0;
    }

    method Acquire(size: int, limit: int) returns (ok: bool)
      modifies this
      ensures ok <==> old(used) + size <= limit
      ensures used == if ok then old(used) + size else old(used)
    {
      if size > limit - used { return false; }
      used := used + size;
      return true;
    }

    method Release(size: int)
      modifies this
      ensures used == old(used) - size
    {
      used := used - size;
    }
  }

  function Max(a: int, b: int): int { if a < b then b else a }

  function Min(a: int, b: int): int { if a < b then a else b }

  /** The block the buffer grows to. */
  function NextCapacity(needed: nat, capacity: nat): nat {
    Min(MAX_BODY, Max(needed, Max(FIRST_BLOCK, 2 * capacity)))
  }

  /** A buffer as a value. `copied` counts the bytes that growing has copied so
      far and `outgrown` is the capacity before the last growth. */
  datatype Live = Live(data: seq<bv8>, capacity: nat, reserved: int, copied: nat, outgrown: nat)

  const EMPTY := Live([], 0, 0, 0, 0)

  /** Growing, if the chunk does not fit. */
  function Grown(b: Live, needed: nat, budgeted: bool): Live {
    if needed <= b.capacity then b
    else
      var next := NextCapacity(needed, b.capacity);
      Live(b.data, next, if budgeted then next else b.reserved, b.copied + |b.data|, b.capacity)
  }

  /** Go's own append, which takes a block of its own choice (`spare` bytes more
      than needed) when even the new block is too small. */
  function Filled(b: Live, chunk: seq<bv8>, spare: nat): Live {
    var needed := |b.data| + |chunk|;
    if needed <= b.capacity then b.(data := b.data + chunk)
    else Live(b.data + chunk, needed + spare, b.reserved, b.copied + |b.data|, b.capacity)
  }

  function Appended(b: Live, chunk: seq<bv8>, budgeted: bool, spare: nat): Live {
    Filled(Grown(b, |b.data| + |chunk|, budgeted), chunk, spare)
  }

  class Buffer {
    var block: array<bv8>
    var length: nat
    const budget: ByteBudget?
    const limit: int
    var reserved: int
    ghost var copied: nat
    ghost var outgrown: nat

    predicate Valid()
      reads this
    {
      length <= block.Length
    }

    /** What the shared budget has handed out. */
    function Used(): int
      reads this, budget
    {
      if budget == null then 0 else budget.used
    }

    ghost function View(): Live
      reads this, block
      requires Valid()
    {
      Live(block[..length], block.Length, reserved, copied, outgrown)
    }

    constructor (budget: ByteBudget?, limit: int)
      ensures Valid() && fresh(block) && this.budget == budget && this.limit == limit && View() == EMPTY
    {
      this.budget := budget;
      this.limit := limit;
      block := new bv8[0];
      length := 0;
      reserved := 0;
      copied := 0;
      outgrown := 0;
    }

    /** Takes the chunk, or changes nothing because the budget is exhausted. */
    method Append(chunk: seq<bv8>, spare: nat) returns (ok: bool)
      requires Valid()
      requires length + |chunk| <= block.Length || length <= MAX_BODY
      modifies this, block, if budget == null then {} else {budget}
      ensures Valid()
      ensures ok <==> || old(length) + |chunk| <= old(block.Length) || budget == null
                      || old(Used()) + NextCapacity(old(length) + |chunk|, old(block.Length)) <= limit
      ensures View() == if ok then Appended(old(View()), chunk, budget != null, spare) else old(View())
      ensures budget != null ==> Used() == old(Used()) + reserved - old(reserved)
      ensures block == old(block) || fresh(block)
    {
      var needed := length + |chunk|;
      ok := true;
      if needed > block.Length {
        ok := Grow(needed);
        if !ok { return; }
      }
      if needed > block.Length { Reallocate(needed + spare); }
      Fill(chunk);
    }

    method Grow(needed: nat) returns (ok: bool)
      requires Valid() && needed > block.Length && length <= MAX_BODY && length <= needed
      modifies this, if budget == null then {} else {budget}
      ensures Valid()
      ensures ok <==> budget == null || old(Used()) + NextCapacity(needed, old(block.Length)) <= limit
      ensures View() == if ok then Grown(old(View()), needed, budget != null) else old(View())
      ensures budget != null ==> Used() == old(Used()) + reserved - old(reserved)
      ensures if ok then fresh(block) else block == old(block)
    {
      var next := NextCapacity(needed, block.Length);
      if budget != null {
        ok := budget.Acquire(next, limit);
        if !ok { return; }
      }
      Reallocate(next);
      if budget != null {
        budget.Release(reserved);
        reserved := next;
      }
      ok := true;
    }

    /** A new block with the same contents. */
    method Reallocate(next: nat)
      requires Valid() && length <= next
      modifies this`block, this`copied, this`outgrown
      ensures Valid() && fresh(block)
      ensures View() == old(View()).(capacity := next, copied := old(copied) + length, outgrown := old(block.Length))
    {
      ghost var was := block[..length];
      var grown := new bv8[next];
      forall i | 0 <= i < length { grown[i] := block[i]; }
      copied := copied + length;
      outgrown := block.Length;
      assert grown[..length] == was;
      block := grown;
    }

    method Fill(chunk: seq<bv8>)
      requires Valid() && length + |chunk| <= block.Length
      modifies this`length, block
      ensures Valid() && View() == old(View()).(data := old(View()).data + chunk)
    {
      ghost var was := block[..length];
      forall i | 0 <= i < |chunk| { block[length + i] := chunk[i]; }
      assert block[..length + |chunk|] == was + chunk;
      length := length + |chunk|;
    }

    method Release()
      requires Valid()
      modifies this, if budget == null then {} else {budget}
      ensures Valid() && length == 0 && block.Length == 0 && reserved == 0 && fresh(block)
      ensures budget != null ==> Used() == old(Used()) - old(reserved)
    {
      if budget != null { budget.Release(reserved); }
      reserved := 0;
      block := new bv8[0];
      length := 0;
    }
  }

  // ---------------------------------------------------- one buffer's life

  function AppendAll(chunks: seq<seq<bv8>>, budgeted: bool): Live {
    if chunks == [] then EMPTY
    else Appended(AppendAll(chunks[..|chunks| - 1], budgeted), chunks[|chunks| - 1], budgeted, 0)
  }

  function Join(chunks: seq<seq<bv8>>): seq<bv8> {
    if chunks == [] then [] else Join(chunks[..|chunks| - 1]) + chunks[|chunks| - 1]
  }

  /** What holds of a buffer as long as its contents stay within MAX_BODY. */
  predicate Accounted(b: Live, budgeted: bool) {
    && |b.data| <= b.capacity <= MAX_BODY && b.capacity <= Max(FIRST_BLOCK, 2 * |b.data|)
    && (b.capacity == 0 || FIRST_BLOCK <= b.capacity)
    && b.reserved == (if budgeted then b.capacity else 0)
    && b.copied <= 2 * b.outgrown
    && (b.outgrown < |b.data| || b.outgrown == 0)
    && (b.capacity == MAX_BODY || 2 * b.outgrown <= b.capacity)
  }

  lemma AppendAccounts(b: Live, chunk: seq<bv8>, budgeted: bool, spare: nat)
    requires Accounted(b, budgeted) && |b.data| + |chunk| <= MAX_BODY
    ensures Accounted(Appended(b, chunk, budgeted, spare), budgeted)
    ensures Appended(b, chunk, budgeted, spare).data == b.data + chunk
  {}

  /** Contents, reservation, size and cost of growing, for every way a response of
      at most 32 MiB is cut into chunks: the block is at least 32 KiB and at most
      that or twice the contents, and never more than 32 MiB. */
  lemma {:induction false} BufferLife(chunks: seq<seq<bv8>>, budgeted: bool)
    requires |Join(chunks)| <= 33554432
    ensures var b := AppendAll(chunks, budgeted);
            && |Join(chunks)| <= b.capacity <= 33554432 && (b.capacity <= 32768 || b.capacity <= 2 * |Join(chunks)|)
            && (Join(chunks) != [] ==> b.capacity >= 32768)
            && b.reserved == if budgeted then b.capacity else 0
    ensures Accounted(AppendAll(chunks, budgeted), budgeted)
    ensures AppendAll(chunks, budgeted).data == Join(chunks)
    ensures Join(chunks) != [] ==> AppendAll(chunks, budgeted).copied < 2 * |Join(chunks)|
  {
    if chunks != [] {
      BufferLife(chunks[..|chunks| - 1], budgeted);
      AppendAccounts(AppendAll(chunks[..|chunks| - 1], budgeted), chunks[|chunks| - 1], budgeted, 0);
    }
  }

  /** The reservation is the capacity after an append exactly if the contents
      stay within MAX_BODY; the callers see to that before they append. */
  lemma ReservedIsCapacityIff(b: Live, chunk: seq<bv8>, spare: nat)
    requires Accounted(b, true)
    ensures var c := Appended(b, chunk, true, spare);
            c.reserved == c.capacity <==> |b.data| + |chunk| <= 33554432
  {
    if |b.data| + |chunk| <= MAX_BODY { AppendAccounts(b, chunk, true, spare); }
  }

  /** A block that is outgrown is at least doubled, unless 32 MiB stop it, and
      never grows beyond the double, 32 KiB or what is needed. */
  lemma GrowthIsModest(b: Live, chunk: seq<bv8>, spare: nat)
    requires Accounted(b, true) && b.capacity < |b.data| + |chunk| <= 33554432
    ensures var c := Appended(b, chunk, true, spare).capacity;
            && (c >= 2 * b.capacity || c == 33554432) && c >= 32768
            && (c <= 2 * b.capacity || c == 32768 || c == |b.data| + |chunk|)
  {}

  // -------------------------------------------- buffers sharing the budget

  /** Between Ask and Swap a growing buffer holds both blocks. */
  datatype Slot = Slot(length: nat, capacity: nat, reserved: nat, growing: Option<Growth>)

  datatype Growth = Growth(block: nat, needed: nat)

  datatype System = System(used: int, slots: seq<Slot>)

  datatype Action =
    | Open
    | Ask(i: nat, chunk: nat)
    | Swap(i: nat)
    | Close(i: nat)

  const CLOSED := Slot(0, 0, 0, None)

  /** Each action is what one critical section of the budget makes visible. */
  function Act(s: System, a: Action, limit: int): System {
    match a
    case Open => s.(slots := s.slots + [CLOSED])
    case Ask(i, chunk) =>
      if i >= |s.slots| || s.slots[i].growing.Some? then s
      else
        var (slot, used) := AskSlot(s.slots[i], chunk, s.used, limit);
        System(used, s.slots[i := slot])
    case Swap(i) =>
      if i >= |s.slots| || s.slots[i].growing.None? then s
      else
        var g := s.slots[i].growing.value;
        System(s.used - s.slots[i].reserved, s.slots[i := Slot(g.needed, g.block, g.block, None)])
    case Close(i) =>
      if i >= |s.slots| || s.slots[i].growing.Some? then s
      else System(s.used - s.slots[i].reserved, s.slots[i := CLOSED])
  }

  /** A chunk that would exceed MAX_BODY ends the response before the append. */
  function AskSlot(slot: Slot, chunk: nat, used: int, limit: int): (Slot, int) {
    var needed := slot.length + chunk;
    var next := NextCapacity(needed, slot.capacity);
    if needed > MAX_BODY then (slot, used)
    else if needed <= slot.capacity then (slot.(length := needed), used)
    else if next > limit - used then (slot, used)
    else (slot.(growing := Some(Growth(next, needed))), used + next)
  }

  function SlotOf(b: Live): Slot
    requires b.reserved >= 0
  {
    Slot(|b.data|, b.capacity, b.reserved, None)
  }

  /** The two steps of a slot are one Append of the buffer behind it. */
  lemma SlotFollowsBuffer(b: Live, chunk: seq<bv8>, used: int, limit: int)
    requires Accounted(b, true) && |b.data| + |chunk| <= MAX_BODY
    ensures var c := Appended(b, chunk, true, 0);
            var s := Act(System(used, [SlotOf(b)]), Ask(0, |chunk|), limit);
            var needed := |b.data| + |chunk|;
            var granted := needed <= b.capacity || used + NextCapacity(needed, b.capacity) <= limit;
            && c.reserved >= 0
            && Act(s, Swap(0), limit)
               == if granted then System(used + c.reserved - b.reserved, [SlotOf(c)]) else System(used, [SlotOf(b)])
  {
    AppendAccounts(b, chunk, true, 0);
  }

  function RunSystem(actions: seq<Action>, limit: int): System {
    if actions == [] then System(0, [])
    else Act(RunSystem(actions[..|actions| - 1], limit), actions[|actions| - 1], limit)
  }

  /** The bytes of the blocks a buffer holds on to. */
  function Memory(slot: Slot): nat { slot.capacity + if slot.growing.Some? then slot.growing.value.block else 0 }

  function Total(slots: seq<Slot>): nat {
    if slots == [] then 0 else Total(slots[..|slots| - 1]) + Memory(slots[|slots| - 1])
  }

  lemma {:induction false} TotalUpdate(slots: seq<Slot>, i: nat, slot: Slot)
    requires i < |slots|
    ensures Total(slots[i := slot]) == Total(slots) - Memory(slots[i]) + Memory(slot)
  {
    var n := |slots| - 1;
    if i == n {
      assert slots[i := slot][..n] == slots[..n];
    } else {
      TotalUpdate(slots[..n], i, slot);
      assert slots[i := slot][..n] == slots[..n][i := slot];
    }
  }

  predicate SlotOk(slot: Slot) {
    && slot.length <= slot.capacity == slot.reserved <= MAX_BODY
    && (slot.growing.Some? ==> slot.length <= slot.growing.value.needed <= slot.growing.value.block <= MAX_BODY)
  }

  /** The counter is the memory held, block for block, and within the limit. */
  ghost predicate Balanced(s: System, limit: int) {
    && s.used == Total(s.slots) <= limit
    && forall i | 0 <= i < |s.slots| :: SlotOk(s.slots[i])
  }

  lemma ActBalances(s: System, a: Action, limit: int)
    requires Balanced(s, limit)
    ensures Balanced(Act(s, a, limit), limit)
  {
    match a
    case Open => assert (s.slots + [CLOSED])[..|s.slots|] == s.slots;
    case Ask(i, chunk) =>
      if i < |s.slots| { TotalUpdate(s.slots, i, AskSlot(s.slots[i], chunk, s.used, limit).0); }
    case Swap(i) =>
      if i < |s.slots| && s.slots[i].growing.Some? {
        var g := s.slots[i].growing.value;
        TotalUpdate(s.slots, i, Slot(g.needed, g.block, g.block, None));
      }
    case Close(i) =>
      if i < |s.slots| { TotalUpdate(s.slots, i, CLOSED); }
  }

  /** In every interleaving the budget is the memory of all buffers, old and new
      blocks together, and never exceeds the limit. */
  lemma {:induction false} AlwaysBalanced(actions: seq<Action>, limit: nat)
    ensures Balanced(RunSystem(actions, limit), limit)
  {
    if actions != [] {
      AlwaysBalanced(actions[..|actions| - 1], limit);
      ActBalances(RunSystem(actions[..|actions| - 1], limit), actions[|actions| - 1], limit);
    }
  }

  lemma {:induction false} NothingHeld(slots: seq<Slot>)
    requires forall i | 0 <= i < |slots| :: slots[i] == CLOSED
    ensures Total(slots) == 0
  {
    if slots != [] { NothingHeld(slots[..|slots| - 1]); }
  }

  /** Once every buffer is released the whole budget is free again. */
  lemma AllReleasedIsFree(actions: seq<Action>, limit: nat)
    requires forall i | 0 <= i < |RunSystem(actions, limit).slots| :: RunSystem(actions, limit).slots[i] == CLOSED
    ensures RunSystem(actions, limit).used == 0
  {
    AlwaysBalanced(actions, limit);
    NothingHeld(RunSystem(actions, limit).slots);
  }
}
