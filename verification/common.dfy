/** Shared vocabulary of the model: Python values kept in keyword dictionaries,
    their truthiness, dictionary update, the exceptions the source can raise
    and the status messages the equipment and fraction objects report. */
module Common {

  datatype Option<+T> = None | Some(value: T)

  /** An exception the Python code raises, kept as a value. */
  datatype Fault =
    | ZeroDivision     // ZeroDivisionError of a float division
    | UndefinedName    // NameError / UnboundLocalError of a name the code never binds
    | NegativeRoot     // ValueError of a negative float raised to the power 0.5
    | UnknownKind      // a type index outside the table, leaving the coefficient list unbound
    | NoneOperand      // TypeError of arithmetic on None, the value of a correlation outside its routes

  datatype Result<+T> = Ok(value: T) | Err(fault: Fault) {
    predicate IsFailure() { Err? }

    function PropagateFailure<U>(): Result<U>
      requires Err?
    {
      Err(fault)
    }

    function Extract(): T
      requires Ok?
    {
      value
    }
  }

  /** The user-facing messages, one per translated string of the source. */
  datatype Message =
    | NoMessage
    | InsufficientInput
    | UndefinedPetrol
    | UndefinedInput
    | UndefinedReflux
    | UndefinedLightKeySplit
    | UndefinedHeavyKeySplit
    | UndefinedLightKey
    | UndefinedHeavyKey
    | BadKeys

  /** A value stored under a keyword: None, a number (int or float), a string,
      a list of numbers (a distillation curve) or a stream object. */
  datatype Value = Nothing | Num(x: real) | Text(s: string) | Series(xs: seq<real>) | Stream

  /** Python truthiness: zero, the empty string, the empty list and None are false;
      an object without a length is true. */
  predicate Truthy(v: Value) {
    match v
    case Nothing => false
    case Num(x) => x != 0.0
    case Text(s) => s != ""
    case Series(xs) => xs != []
    case Stream => true
  }

  /** A keyword dictionary over the keyword names `K` a class accepts. */
  type Kwargs<K(==)> = map<K, Value>

  /** `dict.update`: every passed key takes the passed value, every other key
      keeps its value, and no key disappears. */
  function Update<K(==)>(kw: Kwargs<K>, passed: Kwargs<K>): (r: Kwargs<K>)
    ensures r.Keys == kw.Keys + passed.Keys
    ensures forall k :: k in passed ==> r[k] == passed[k]
    ensures forall k :: k in kw && k !in passed ==> r[k] == kw[k]
  {
    kw + passed
  }

  /** `kwargs[k]` used as a condition, for a dictionary that holds every key. */
  predicate Given<K(==)>(kw: Kwargs<K>, k: K)
    requires k in kw
  {
    Truthy(kw[k])
  }

  /** A keyword dictionary held by reference. A class-level `kwargs` of the
      source is one such object, shared by every instance of the class. */
  class InputTable<K(==)> {
    var entries: Kwargs<K>

    constructor (initial: Kwargs<K>)
      ensures entries == initial
    {
      entries := initial;
    }
  }
}
