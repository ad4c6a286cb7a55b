/** Values of a Fortran namelist as the f90nml reader hands them to the
    tools: integers, reals, strings, logicals, complex numbers, the null
    value of an empty entry (Python's None), lists, and nested groups
    (a namelist is a group of sections, a section a group of variables).
    Also the failure kinds the tools can raise, and Python's list indexing. */
module Values {

  datatype Value =
    | IntVal(i: int)
    | RealVal(r: real)
    | StrVal(s: string)
    | BoolVal(b: bool)
    | ComplexVal(re: real, im: real)
    | NoneVal
    | ListVal(items: seq<Value>)
    | GroupVal(entries: map<string, Value>)

  /** The namelist entries of a list of integers. */
  function IntVals(ns: seq<int>): (r: seq<Value>)
    ensures |r| == |ns| && forall k :: 0 <= k < |ns| ==> r[k] == IntVal(ns[k])
  {
    seq(|ns|, k requires 0 <= k < |ns| => IntVal(ns[k]))
  }

  datatype Option<T> = None | Some(value: T)

  /** The exceptions the tools let escape: a missing key (KeyError),
      indexing something that is not a dictionary or list (TypeError), a
      value of a type the operation cannot use (TypeError), an unparsable
      number (ValueError), an index outside a list (IndexError), a division
      by zero, and a failed assertion. */
  datatype Failure =
    | KeyNotFound(key: string)
    | NotAContainer
    | WrongType
    | BadNumber(text: string)
    | IndexOutOfRange
    | ZeroDivision
    | AssertionFailed

  /** The outcome of an operation that may raise; usable with :- to stop at
      the first failure, as an uncaught exception does. */
  datatype Result<T> = Ok(value: T) | Err(error: Failure)
  {
    predicate IsFailure()
    {
      Err?
    }

    function PropagateFailure<U>(): Result<U>
      requires Err?
    {
      Err(error)
    }

    function Extract(): T
      requires Ok?
    {
      value
    }
  }

  function Max(a: int, b: int): int
  {
    if a < b then b else a
  }

  /** Python accepts an index i into a list of length n when -n <= i < n. */
  predicate ValidPyIndex(n: int, i: int)
  {
    -n <= i < n
  }

  /** The position a Python index i refers to in a list of length n. */
  function PySlot(n: int, i: int): (k: nat)
    requires ValidPyIndex(n, i)
    ensures k < n
    ensures i >= 0 ==> k == i
    ensures i < 0 ==> k == n + i
  {
    if i < 0 then n + i else i
  }

  function PyIndex<T>(a: seq<T>, i: int): T
    requires ValidPyIndex(|a|, i)
  {
    a[PySlot(|a|, i)]
  }

  /** The first of keys missing from section, in order: the key a sequence
      of Python lookups fails on. */
  function FirstMissing<V>(section: map<string, V>, keys: seq<string>): (r: Option<string>)
    ensures r.None? <==> forall k :: k in keys ==> k in section
    ensures r.Some? ==> r.value in keys && r.value !in section
  {
    if keys == [] then None
    else if keys[0] !in section then Some(keys[0])
    else FirstMissing(section, keys[1..])
  }
}
