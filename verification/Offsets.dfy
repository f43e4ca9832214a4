/** Offset formulas: how the host evaluates them, how a device evaluates what it stored, and the
    persisted block they come from. */
module Offsets {
  import opened Basics

  const OFFSET_MS_MAX := 0xFFFF
  const INT16_MIN := -32768
  const INT16_MAX := 32767
  const GROUP_ID_MAX := 254
  const BROADCAST_GROUP := 255

  datatype Formula =
    | Linear(base: int, step: int)
    | VShape(base: int, step: int, center: int)
    | Modulo(base: int, step: int, cycle: int)

  /** What one OPC_OFFSET packet carries and a device stores. */
  datatype Offset = NoOffset | Fixed(ms: int) | Computed(f: Formula)

  datatype GroupMs = GroupMs(id: int, ms: int)

  /** The persisted `offset` block of a container. */
  datatype OffsetBlock = NoneBlock | ExplicitBlock(values: seq<GroupMs>) | FormulaBlock(f: Formula)

  function ClampMs(v: int): int {
    Clamp(v, 0, OFFSET_MS_MAX)
  }

  function Distance(a: int, b: int): nat {
    if a < b then b - a else a - b
  }

  /** The host's evaluator; the group id and the center are masked to a byte first. */
  function EvaluateOffsetMs(spec: Offset, groupId: int): int {
    var gid := LowByte(groupId);
    match spec
    case NoOffset => 0
    case Fixed(ms) => ClampMs(ms)
    case Computed(Linear(base, step)) => ClampMs(base + gid * step)
    case Computed(VShape(base, step, center)) => ClampMs(base + Distance(gid, LowByte(center)) * step)
    case Computed(Modulo(base, step, cycle)) =>
      var c := if cycle > 0 then cycle else 1;
      ClampMs(base + (gid % c) * step)
  }

  /** The header's definition: the offset a device of group `g` computes from the configuration it stored. */
  function DeviceOffsetMs(stored: Offset, g: byte): int {
    match stored
    case NoOffset => 0
    case Fixed(ms) => ms
    case Computed(Linear(base, step)) => ClampMs(base + g * step)
    case Computed(VShape(base, step, center)) => ClampMs(base + Distance(g, center) * step)
    case Computed(Modulo(base, step, cycle)) => ClampMs(base + (g % (if cycle <= 0 then 1 else cycle)) * step)
  }

  predicate Int16(v: int) {
    INT16_MIN <= v <= INT16_MAX
  }

  predicate GroupId(g: int) {
    0 <= g <= GROUP_ID_MAX
  }

  predicate ValidFormula(f: Formula) {
    && Int16(f.base)
    && Int16(f.step)
    && (f.VShape? ==> GroupId(f.center))
    && (f.Modulo? ==> 1 <= f.cycle <= 255)
  }

  predicate ValidOffset(c: Offset) {
    match c
    case NoOffset => true
    case Fixed(ms) => 0 <= ms <= OFFSET_MS_MAX
    case Computed(f) => ValidFormula(f)
  }

  /** Host and device compute the same offset from the same validated configuration. */
  lemma HostAgreesWithDevice(c: Offset, g: byte)
    requires ValidOffset(c)
    ensures EvaluateOffsetMs(c, g) == DeviceOffsetMs(c, g)
    ensures 0 <= DeviceOffsetMs(c, g) <= OFFSET_MS_MAX
  {
    assert LowByte(g) == g;
    if c.Computed? {
      match c.f
      case Linear(base, step) => assert base + LowByte(g) * step == base + g * step;
      case VShape(_, _, center) => assert LowByte(center) == center;
      case Modulo(_, _, cycle) => assert LowByte(g) % cycle == g % cycle;
    }
  }

  /** Python's `{id: ms for ...}`: the last entry for a group wins; a missing group reads 0. */
  function ExplicitMs(values: seq<GroupMs>, g: int): int
    decreases |values|
  {
    if values == [] then 0
    else if values[|values| - 1].id == g then values[|values| - 1].ms
    else ExplicitMs(values[..|values| - 1], g)
  }

  /** The offset the operator asked for in group `g`. */
  function WantedMs(block: OffsetBlock, g: int): int {
    match block
    case NoneBlock => 0
    case ExplicitBlock(values) => ExplicitMs(values, g)
    case FormulaBlock(f) => EvaluateOffsetMs(Computed(f), g)
  }

  /** `ExplicitMs` in range whenever every entry is. */
  lemma {:induction false} ExplicitMsRange(values: seq<GroupMs>, g: int)
    requires forall i :: 0 <= i < |values| ==> 0 <= values[i].ms <= OFFSET_MS_MAX
    ensures 0 <= ExplicitMs(values, g) <= OFFSET_MS_MAX
    decreases |values|
  {
    if values != [] && values[|values| - 1].id != g {
      ExplicitMsRange(values[..|values| - 1], g);
    }
  }

  /** With distinct ids, the value a group reads is the value of its one entry. */
  lemma {:induction false} ExplicitMsOfDistinct(values: seq<GroupMs>, k: nat)
    requires k < |values|
    requires forall i, j :: 0 <= i < j < |values| ==> values[i].id != values[j].id
    ensures ExplicitMs(values, values[k].id) == values[k].ms
    decreases |values|
  {
    if k < |values| - 1 {
      ExplicitMsOfDistinct(values[..|values| - 1], k);
    }
  }
}
