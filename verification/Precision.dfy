/** Precision levels and the constants that belong to them (backend/config.py). */
module PrecisionLevels {

  datatype Precision = INT2 | INT4 | INT8 | FP16

  /** Token groups per layer. */
  const NUM_GROUPS: nat := 4

  /** Position in the order INT2 < INT4 < INT8 < FP16. */
  function Rank(p: Precision): (r: nat)
    ensures r <= 3
  {
    match p
    case INT2 => 0
    case INT4 => 1
    case INT8 => 2
    case FP16 => 3
  }

  /** Data cost of one element, in quarter bytes (2, 1, 0.5 and 0.25 bytes). */
  function Cost(p: Precision): (c: nat)
    ensures 1 <= c <= 8
  {
    match p
    case INT2 => 1
    case INT4 => 2
    case INT8 => 4
    case FP16 => 8
  }

  /** Data size of `n` elements, in quarter bytes. */
  function Data(n: nat, p: Precision): (d: nat) {
    match p
    case INT2 => n
    case INT4 => 2 * n
    case INT8 => 4 * n
    case FP16 => 8 * n
  }

  /** One level up; FP16 is the top. */
  function Up(p: Precision): Precision {
    match p
    case INT2 => INT4
    case INT4 => INT8
    case _ => FP16
  }

  /** One level down; INT2 is the bottom. */
  function Down(p: Precision): Precision {
    match p
    case FP16 => INT8
    case INT8 => INT4
    case _ => INT2
  }

  /** Half-open token range of group `g` in a layer of `seqLen` tokens. */
  function GroupStart(seqLen: nat, g: nat): nat {
    g * seqLen / NUM_GROUPS
  }

  function GroupSize(seqLen: nat, g: nat): nat
    requires g < NUM_GROUPS
  {
    GroupStart(seqLen, g + 1) - GroupStart(seqLen, g)
  }

  /** The four groups tile a layer: consecutive, from the first token to the last, and nearly equal. */
  lemma {:induction false} GroupsTile(seqLen: nat)
    ensures GroupStart(seqLen, 0) == 0 && GroupStart(seqLen, NUM_GROUPS) == seqLen
    ensures GroupSize(seqLen, 0) + GroupSize(seqLen, 1) + GroupSize(seqLen, 2) + GroupSize(seqLen, 3) == seqLen
    ensures forall g: nat {:trigger GroupSize(seqLen, g)} :: g < NUM_GROUPS ==>
              seqLen / NUM_GROUPS <= GroupSize(seqLen, g) <= seqLen / NUM_GROUPS + 1
  {
  }

  ghost predicate InGroup(seqLen: nat, g: nat, t: nat) {
    g < NUM_GROUPS && GroupStart(seqLen, g) <= t < GroupStart(seqLen, g + 1)
  }

  /** Every token lies in exactly one group. */
  lemma {:induction false} TokenInOneGroup(seqLen: nat, t: nat) returns (g: nat)
    requires t < seqLen
    ensures InGroup(seqLen, g, t)
    ensures forall h: nat :: InGroup(seqLen, h, t) ==> h == g
  {
    g := 0;
    while t >= GroupStart(seqLen, g + 1)
      invariant g < NUM_GROUPS && GroupStart(seqLen, g) <= t
      decreases NUM_GROUPS - g
    {
      g := g + 1;
    }
  }
}
