/**
 * The parsed Braket IR program (`braket.ir.jaqcd.Program`): what `Program.parse_raw`
 * yields. A field of type Option is one the instruction's schema may or may not
 * declare; `hasattr` on it is `.Some?`.
 */
module BraketIr {
  import opened Common

  /** A matrix entry as written in the IR: the two-element list `[re, im]`. */
  datatype Pair = Pair(re: real, im: real)

  type RawMatrix = seq<seq<Pair>>

  datatype Instruction = Instruction(
    kind: string,
    control: Option<int>,
    controls: Option<seq<int>>,
    target: Option<int>,
    targets: Option<seq<int>>,
    angle: Option<real>,
    probability: Option<real>,
    gamma: Option<real>,
    matrix: Option<RawMatrix>,
    matrices: Option<seq<RawMatrix>>)

  /** A declared result type; `targets` is None when absent or null. */
  datatype ResultSpec = ResultSpec(
    kind: string,
    observable: Option<seq<string>>,
    states: Option<seq<string>>,
    targets: Option<seq<int>>)

  /** `results` is optional in the schema: None when the text has no "results" key. */
  datatype Program = Program(instructions: seq<Instruction>, results: Option<seq<ResultSpec>>)
}
