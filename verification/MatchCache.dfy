/** Prefix-set membership behind a direct-mapped cache of packed words, and a table that can be swapped. */
module MatchCache {
  import opened Common

  const SLOTS: nat := 509
  const WORD: nat := 0x1_0000_0000

  /** An address: IPv4, IPv4 inside IPv6, or IPv6 proper. */
  datatype Addr = V4(key: nat) | Mapped(key: nat) | V6(high: nat, low: nat)

  predicate WellFormed(a: Addr) {
    a.V6? || a.key < WORD
  }

  function Unmap(a: Addr): Addr {
    if a.Mapped? then V4(a.key) else a
  }

  /** Membership in the prefix set, as the tree answers it. */
  type Table = Addr -> bool

  // ---- packed words ------------------------------------------------------------------------------------

  /** Address in the upper half, a valid bit, and the result in the lowest bit. */
  function Pack(key: nat, res: bool): nat {
    key * WORD + 2 + if res then 1 else 0
  }

  predicate IsValid(w: nat) {
    (w / 2) % 2 == 1
  }

  function KeyOf(w: nat): nat {
    w / WORD
  }

  predicate ResultOf(w: nat) {
    w % 2 == 1
  }

  lemma Unpack(key: nat, res: bool)
    ensures var w := Pack(key, res); IsValid(w) && KeyOf(w) == key && ResultOf(w) == res
  {
    var low := 2 + if res then 1 else 0;
    HighPart(key, low);
    LowBits(key * 0x4000_0000, if res then 1 else 0);
  }

  lemma LowBits(y: nat, r: nat)
    requires r < 2
    ensures (4 * y + 2 + r) % 2 == r && (4 * y + 2 + r) / 2 % 2 == 1
  {
    assert (4 * y + 2 + r) / 2 == 2 * y + 1;
  }

  lemma HighPart(key: nat, low: nat)
    requires low < WORD
    ensures (key * WORD + low) / WORD == key
  {
  }

  // ---- the matcher -------------------------------------------------------------------------------------

  /** A set that can be reloaded: the current table and the cache built for it, replaced together. */
  class Matcher {
    var table: Table
    var slots: array<nat>

    /** A valid word says the truth about its address. */
    ghost predicate Valid()
      reads this, slots
    {
      && slots.Length == SLOTS
      && forall i :: 0 <= i < SLOTS ==> IsValid(slots[i]) ==> ResultOf(slots[i]) == table(V4(KeyOf(slots[i])))
    }

    constructor (table: Table)
      ensures Valid() && this.table == table && fresh(slots)
    {
      this.table := table;
      slots := new nat[SLOTS](_ => 0);
    }

    /** Cached or not, the answer is the table's. */
    method Contains(ip: Addr) returns (res: bool)
      requires Valid() && WellFormed(ip)
      modifies slots
      ensures Valid() && res == table(Unmap(ip))
    {
      var a := Unmap(ip);
      if !a.V4? {
        return table(a);
      }
      var idx := a.key % SLOTS;
      var w := slots[idx];
      if IsValid(w) && KeyOf(w) == a.key {
        return ResultOf(w);
      }
      res := table(a);
      Unpack(a.key, res);
      slots[idx] := Pack(a.key, res);
    }

    /** A failed load keeps the old table; a good one comes with an empty cache. */
    method Reload(loaded: Option<Table>) returns (ok: bool)
      requires Valid()
      modifies this
      ensures Valid() && ok == loaded.Some? && table == (if ok then loaded.value else old(table))
      ensures ok ==> fresh(slots)
      ensures !ok ==> slots == old(slots)
    {
      ok := loaded.Some?;
      if ok {
        table := loaded.value;
        slots := new nat[SLOTS](_ => 0);
      }
    }
  }

  // ---- every sequence of lookups and reloads -------------------------------------------------------------

  datatype Op = Lookup(ip: Addr) | Load(loaded: Option<Table>)

  /** What uncached membership in whatever table is current would answer. */
  ghost function Answers(table: Table, ops: seq<Op>): seq<bool>
    decreases |ops|
  {
    if ops == [] then []
    else
      var before := ops[..|ops| - 1];
      match ops[|ops| - 1]
      case Lookup(ip) => Answers(table, before) + [Current(table, before)(Unmap(ip))]
      case Load(_) => Answers(table, before)
  }

  /** The table after a run: the last one that loaded. */
  ghost function Current(table: Table, ops: seq<Op>): Table {
    if ops == [] then table
    else
      match ops[|ops| - 1]
      case Lookup(_) => Current(table, ops[..|ops| - 1])
      case Load(loaded) => if loaded.Some? then loaded.value else Current(table, ops[..|ops| - 1])
  }

  /** The cache never shows, whatever is asked and reloaded in whatever order. */
  method Run(m: Matcher, ops: seq<Op>) returns (answers: seq<bool>)
    requires m.Valid() && forall i :: 0 <= i < |ops| && ops[i].Lookup? ==> WellFormed(ops[i].ip)
    modifies m, m.slots
    ensures m.Valid() && answers == Answers(old(m.table), ops) && m.table == Current(old(m.table), ops)
  {
    answers := [];
    for i := 0 to |ops|
      invariant m.Valid() && (m.slots == old(m.slots) || fresh(m.slots))
      invariant answers == Answers(old(m.table), ops[..i]) && m.table == Current(old(m.table), ops[..i])
    {
      assert ops[..i + 1][..i] == ops[..i];
      match ops[i]
      case Lookup(ip) =>
        var res := m.Contains(ip);
        answers := answers + [res];
      case Load(loaded) =>
        var ok := m.Reload(loaded);
    }
    assert ops[..|ops|] == ops;
  }
}
