/**
 * The executable circuit, seen from outside: a record of the calls made on it.
 * Gate semantics belong to the circuit runtime and are not modelled; a call is
 * its method name, its positional arguments and its keyword arguments.
 */
module Circuits {

  datatype Complex = Complex(re: real, im: real)

  /** An argument value passed to a circuit method. */
  datatype Value =
    | IntV(i: int)                                // a qubit index
    | RealV(x: real)                              // an angle, a probability, a gamma
    | QubitsV(qubits: seq<int>)                   // a list of qubit indices
    | MatrixV(m: seq<seq<Complex>>)               // a complex matrix
    | MatricesV(ms: seq<seq<seq<Complex>>>)       // a list of complex matrices
    | StringsV(strings: seq<string>)              // a list of basis states
    | ObservableV(name: string)                   // an observable built by its constructor's name
    | NoiseV(channel: string, probability: real)  // a noise channel
    | NoneV                                       // Python's None

  datatype Call = Call(name: string, args: seq<Value>, kwargs: map<string, Value>)

  class Circuit {
    var calls: seq<Call>

    /** `Circuit()` */
    constructor ()
      ensures calls == []
    {
      calls := [];
    }

    /** A circuit handed over whole by code outside this model. */
    constructor FromCalls(cs: seq<Call>)
      ensures calls == cs
    {
      calls := cs;
    }

    /** `circuit.<name>(*args, **kwargs)` */
    method Apply(c: Call)
      modifies this
      ensures calls == old(calls) + [c]
    {
      calls := calls + [c];
    }
  }
}
