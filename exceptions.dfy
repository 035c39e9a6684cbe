/** The exceptions the bot raises and catches: the four classes of exceptions.py
    and the built-in ones its code raises, with the text `str(e)` gives each. */
module Exceptions {
  import opened Python

  datatype Error =
    | CheckTokensError(message: string)
    | RequestApiError(message: string)
    | ResponseApiError(message: string)
    | InvalidJSONError(message: string)
      /** Built-in TypeError with its constructor arguments. */
    | TypeError(args: seq<string>)
      /** Built-in KeyError with its one argument. */
    | KeyError(key: string)
      /** Built-in AttributeError, as raised when `.get` is called on a non-dict. */
    | AttributeError(message: string)
      /** Built-in UnboundLocalError, as raised when a local is read before assignment. */
    | UnboundLocalError(message: string)

  /** `str(e)`: an exception built from one argument prints it; from several, the
      repr of the argument tuple; a KeyError prints the repr of its key. */
  function Str(e: Error): string
  {
    match e
    case CheckTokensError(m) => m
    case RequestApiError(m) => m
    case ResponseApiError(m) => m
    case InvalidJSONError(m) => m
    case TypeError(args) =>
      if |args| == 0 then ""
      else if |args| == 1 then args[0]
      else "(" + Join(seq(|args|, i requires 0 <= i < |args| => Repr(args[i])), ", ") + ")"
    case KeyError(key) => Repr(key)
    case AttributeError(m) => m
    case UnboundLocalError(m) => m
  }

  /** A computation that either returns a value or raises. */
  datatype Result<+T> = Ok(value: T) | Err(error: Error) {
    predicate IsFailure() { Err? }

    function PropagateFailure<U>(): Result<U>
      requires Err?
    {
      Err(error)
    }

    function Extract(): T
      requires Ok?
    {
      value
    }
  }

  /** A check that either passes or raises. */
  datatype Outcome = Pass | Fail(error: Error)

  // ---------------------------------------------------------------------------
  // Importing the exception classes
  // ---------------------------------------------------------------------------

  /** The classes exceptions.py defines, in order. */
  const DefinedClasses: seq<string> :=
    ["CheckTokensError", "RequestApiError", "ResponseApiError", "InvalidJSONError"]

  /** The names homework.py imports from exceptions.py, spelled as there: the last
      one begins with CYRILLIC CAPITAL LETTER ES (U+0421), not with a Latin C. */
  const ImportedAsWritten: seq<string> :=
    ["InvalidJSONError", "RequestApiError", "ResponseApiError", "\U{0421}heckTokensError"]

  /** The same import with the Latin spelling the class is defined under. */
  const ImportedCorrected: seq<string> :=
    ["InvalidJSONError", "RequestApiError", "ResponseApiError", "CheckTokensError"]

  datatype ImportOutcome = Imported | ImportError(name: string)

  /** `from module import names...`: names are bound left to right, and the first
      one the module does not define raises ImportError naming it. */
  function ImportFrom(defined: seq<string>, names: seq<string>): (r: ImportOutcome)
    ensures r.Imported? <==> forall i :: 0 <= i < |names| ==> names[i] in defined
    ensures r.ImportError? ==>
              exists k :: 0 <= k < |names| && names[k] == r.name && r.name !in defined &&
                          forall i :: 0 <= i < k ==> names[i] in defined
  {
    if names == [] then Imported
    else if names[0] !in defined then ImportError(names[0])
    else
      var rest := ImportFrom(defined, names[1..]);
      assert forall i :: 1 <= i < |names| ==> names[i] == names[1..][i - 1];
      rest
  }

  /** The name check_tokens raises, spelled as at its `raise`: it too begins with
      CYRILLIC CAPITAL LETTER ES. */
  const RaisedAsWritten: string := "\U{0421}heckTokensError"

  /** The same name with the Latin spelling the class is defined under. */
  const RaisedCorrected: string := "CheckTokensError"

  /** As written, loading homework.py fails at its import line, and the name its
      `raise` uses is not one exceptions.py defines either. */
  lemma AsWrittenImportFails()
    ensures ImportFrom(DefinedClasses, ImportedAsWritten) == ImportError("\U{0421}heckTokensError")
    ensures RaisedAsWritten !in DefinedClasses
  {
  }

  /** Correcting the import alone is not enough: the import then resolves, but the
      name the `raise` uses is not bound by it, so raising fails with NameError. */
  lemma ImportOnlyCorrectionLeavesRaiseUnbound()
    ensures ImportFrom(DefinedClasses, ImportedCorrected) == Imported
    ensures RaisedAsWritten !in ImportedCorrected
  {
  }

  /** With the Latin spelling at both places every imported name resolves, and the
      raised name is one of those imported. */
  lemma CorrectedImportResolves()
    ensures ImportFrom(DefinedClasses, ImportedCorrected) == Imported
    ensures RaisedCorrected in ImportedCorrected && RaisedCorrected in DefinedClasses
  {
  }
}
