/** Gate evaluation (`eval_gate` in digitalsim.py). Signal values are Python
    integers, so `&`, `|` and `^` act bitwise on unbounded two's-complement
    integers; on the bits 0 and 1 they are the usual truth tables. */
module Gates {
  import opened Results

  /** Why evaluating a gate fails: a kind other than AND, OR, NOT and XOR, or
      fewer operands than the kind reads (Python's IndexError). */
  datatype EvalError = UnknownGateKind(kind: string) | MissingOperand(kind: string)

  // ---- two's-complement bitwise operations ----

  datatype BitOp = AndOp | OrOp | XorOp

  /** The operation on a single pair of bits. */
  function ApplyBit(op: BitOp, x: bool, y: bool): bool {
    match op
    case AndOp => x && y
    case OrOp => x || y
    case XorOp => x != y
  }

  /** A measure that shrinks when an integer is halved, unless it is 0 or -1,
      the two integers whose bits are all equal. */
  function Magnitude(a: int): nat {
    if a < 0 then -a - 1 else a
  }

  /** Bit `i` of `a` in two's complement (bit 0 is the least significant). */
  function Bit(a: int, i: nat): bool
    decreases i
  {
    if i == 0 then a % 2 == 1 else Bit(a / 2, i - 1)
  }

  /** Python's `a & b`, `a | b` and `a ^ b` on integers, bit by bit from the
      least significant bit until both operands are all zeros or all ones. */
  function Bitwise(op: BitOp, a: int, b: int): (r: int)
    decreases Magnitude(a) + Magnitude(b)
  {
    if (a == 0 || a == -1) && (b == 0 || b == -1) then
      if ApplyBit(op, a == -1, b == -1) then -1 else 0
    else
      2 * Bitwise(op, a / 2, b / 2) + (if ApplyBit(op, a % 2 == 1, b % 2 == 1) then 1 else 0)
  }

  /** 0 has no bit set and -1 has every bit set. */
  lemma {:induction false} BitOfConstant(a: int, i: nat)
    requires a == 0 || a == -1
    ensures Bit(a, i) == (a == -1)
    decreases i
  {
    if i > 0 {
      BitOfConstant(a / 2, i - 1);
    }
  }

  /** `Bitwise` is the bit-by-bit operation: every bit of the result is the
      operation applied to the same bit of the operands. */
  lemma {:induction false} BitwiseBit(op: BitOp, a: int, b: int, i: nat)
    ensures Bit(Bitwise(op, a, b), i) == ApplyBit(op, Bit(a, i), Bit(b, i))
    decreases Magnitude(a) + Magnitude(b)
  {
    var r := Bitwise(op, a, b);
    if (a == 0 || a == -1) && (b == 0 || b == -1) {
      BitOfConstant(a, i);
      BitOfConstant(b, i);
      BitOfConstant(r, i);
    } else {
      var c := if ApplyBit(op, a % 2 == 1, b % 2 == 1) then 1 else 0;
      assert r == 2 * Bitwise(op, a / 2, b / 2) + c;
      assert r % 2 == c && r / 2 == Bitwise(op, a / 2, b / 2);
      if i > 0 {
        BitwiseBit(op, a / 2, b / 2, i - 1);
      }
    }
  }

  // ---- gates ----

  predicate IsBit(x: int) {
    x == 0 || x == 1
  }

  /** The gate kinds `eval_gate` knows, and how many operands each reads. */
  predicate KnownKind(kind: string) {
    kind == "AND" || kind == "OR" || kind == "NOT" || kind == "XOR"
  }

  function Arity(kind: string): nat {
    if kind == "NOT" then 1 else 2
  }

  /** `eval_gate(kind, args)`: the kind is compared with AND, OR, NOT and XOR
      in that order; operands beyond those the kind reads are ignored. */
  function EvalGate(kind: string, args: seq<int>): (r: Result<int, EvalError>)
    ensures !KnownKind(kind) ==> r == Err(UnknownGateKind(kind))
    ensures KnownKind(kind) && |args| < Arity(kind) ==> r == Err(MissingOperand(kind))
    ensures r.Ok? <==> KnownKind(kind) && |args| >= Arity(kind)
  {
    if kind == "AND" then
      if |args| < 2 then Err(MissingOperand(kind)) else Ok(Bitwise(AndOp, args[0], args[1]))
    else if kind == "OR" then
      if |args| < 2 then Err(MissingOperand(kind)) else Ok(Bitwise(OrOp, args[0], args[1]))
    else if kind == "NOT" then
      if |args| < 1 then Err(MissingOperand(kind)) else Ok(1 - args[0])
    else if kind == "XOR" then
      if |args| < 2 then Err(MissingOperand(kind)) else Ok(Bitwise(XorOp, args[0], args[1]))
    else
      Err(UnknownGateKind(kind))
  }

  /** On bit operands the gates are the usual truth tables and yield a bit. */
  lemma {:induction false} EvalGateOnBits(kind: string, args: seq<int>)
    requires KnownKind(kind) && |args| >= Arity(kind)
    requires forall k :: 0 <= k < Arity(kind) ==> IsBit(args[k])
    ensures EvalGate(kind, args).Ok? && IsBit(EvalGate(kind, args).value)
    ensures kind == "AND" ==> EvalGate(kind, args).value == args[0] * args[1]
    ensures kind == "OR" ==> EvalGate(kind, args).value == args[0] + args[1] - args[0] * args[1]
    ensures kind == "XOR" ==> EvalGate(kind, args).value == (args[0] + args[1]) % 2
    ensures kind == "NOT" ==> EvalGate(kind, args).value == 1 - args[0]
  {
    assert IsBit(args[0]);
    if kind != "NOT" {
      assert IsBit(args[1]);
      assert Bitwise(AndOp, 0, 0) == 0 && Bitwise(OrOp, 0, 0) == 0 && Bitwise(XorOp, 0, 0) == 0;
    }
  }

  /** A gate that evaluates on bit operands yields a bit. */
  lemma {:induction false} EvalGateBit(kind: string, args: seq<int>)
    requires EvalGate(kind, args).Ok?
    requires forall k :: 0 <= k < |args| ==> IsBit(args[k])
    ensures IsBit(EvalGate(kind, args).value)
  {
    EvalGateOnBits(kind, args);
  }

  /** For AND, OR and XOR every bit of the result is the operation on the
      same bit of the two operands, whatever their sign or size. */
  lemma {:induction false} EvalGateBitwise(kind: string, args: seq<int>, i: nat)
    requires kind == "AND" || kind == "OR" || kind == "XOR"
    requires |args| >= 2
    ensures EvalGate(kind, args).Ok?
    ensures var op := if kind == "AND" then AndOp else if kind == "OR" then OrOp else XorOp;
      Bit(EvalGate(kind, args).value, i) == ApplyBit(op, Bit(args[0], i), Bit(args[1], i))
  {
    var op := if kind == "AND" then AndOp else if kind == "OR" then OrOp else XorOp;
    BitwiseBit(op, args[0], args[1], i);
  }

  /** NOT is arithmetic, not bitwise: `1 - x` for every operand, so it maps
      bits to bits and anything else (NOT of 2 is -1) to a non-bit. */
  lemma {:induction false} NotArithmetic(x: int, rest: seq<int>)
    ensures EvalGate("NOT", [x] + rest) == Ok(1 - x)
    ensures IsBit(EvalGate("NOT", [x] + rest).value) <==> IsBit(x)
  {
  }
}
