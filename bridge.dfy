/**
 * The callback bridge into Python: the `ensure_gil` guard, `pyfunction`'s
 * call operator and `notify_transaction`.
 *
 * The interpreter is reduced to what the bridge can observe of it: how many
 * GIL guards are alive, the calls made into Python (with whether the GIL was
 * held at the time), and how many Python errors were printed.  Whether a
 * call raises is decided by the Python code, so it is a parameter here.
 */
module Bridge {
  import opened Inventory
  import opened Network

  /** A Python object as the bridge passes it around. */
  datatype PyObject = PyNone | PyStr(s: string) | PyFunction(id: nat)

  /** One call into Python: the callable, its argument, and whether the GIL was held. */
  datatype PyCall = PyCall(callee: PyObject, arg: PyObject, gilHeld: bool)

  /**
   * The `std::string` built from a digest's bytes: 32 characters, the i-th
   * of which has the code of the i-th byte.
   */
  function HashString(h: HashDigest): (s: string)
    ensures |s| == 32
    ensures forall i :: 0 <= i < 32 ==> s[i] as int == h[i] as int
  {
    seq(32, i requires 0 <= i < 32 => h[i] as char)
  }

  /** The digest a 32-character byte string stands for, if it is one. */
  function StringDigest(s: string): (r: Option<HashDigest>)
    ensures r.Some? <==> |s| == 32 && forall i :: 0 <= i < |s| ==> s[i] as int < 256
  {
    if |s| == 32 && forall i :: 0 <= i < |s| ==> s[i] as int < 256
    then var h: HashDigest := seq(32, i requires 0 <= i < 32 => s[i] as int as Byte); Some(h)
    else None
  }

  /**
   * The string handed to the observer is byte-identical to the digest (a
   * Python 2 `str`, as Boost.Python converts a `std::string` under Python 2).
   */
  lemma HashStringRoundTrip(h: HashDigest)
    ensures StringDigest(HashString(h)) == Some(h)
  {
    var s := HashString(h);
    assert StringDigest(s).Some?;
    assert StringDigest(s).value == h;
  }

  /** ... and nothing but that digest yields that string. */
  lemma StringDigestRoundTrip(s: string, h: HashDigest)
    requires StringDigest(s) == Some(h)
    ensures HashString(h) == s
  {
  }

  class Interpreter {
    /** The number of `ensure_gil` guards alive; the GIL is held while it is positive. */
    var gilDepth: nat
    /** Every call made into Python, in order. */
    var calls: seq<PyCall>
    /** How many Python errors `PyErr_Print` has reported. */
    var errorsPrinted: nat

    /**
     * Every call into Python is made with the GIL held.  Reference-count
     * changes on Python objects are not tracked here.
     */
    ghost predicate Valid()
      reads this
    {
      forall i :: 0 <= i < |calls| ==> calls[i].gilHeld
    }

    constructor ()
      ensures Valid() && gilDepth == 0 && calls == [] && errorsPrinted == 0
    {
      gilDepth, calls, errorsPrinted := 0, [], 0;
    }

    /** `PyGILState_Ensure`, run by the `ensure_gil` constructor. */
    method EnsureGil()
      modifies this
      ensures gilDepth == old(gilDepth) + 1
      ensures calls == old(calls) && errorsPrinted == old(errorsPrinted)
    {
      gilDepth := gilDepth + 1;
    }

    /** `PyGILState_Release`, run by the `ensure_gil` destructor. */
    method ReleaseGil()
      requires gilDepth > 0
      modifies this
      ensures gilDepth == old(gilDepth) - 1
      ensures calls == old(calls) && errorsPrinted == old(errorsPrinted)
    {
      gilDepth := gilDepth - 1;
    }

    /** Enters Python: calls `callee` with `arg`. */
    method Call(callee: PyObject, arg: PyObject)
      modifies this
      ensures calls == old(calls) + [PyCall(callee, arg, old(gilDepth) > 0)]
      ensures gilDepth == old(gilDepth) && errorsPrinted == old(errorsPrinted)
    {
      calls := calls + [PyCall(callee, arg, gilDepth > 0)];
    }

    /**
     * `PyErr_Print`: reports, and clears, the pending Python error.  A pending
     * `SystemExit` would instead end the process; that outcome is not modelled.
     */
    method PrintError()
      modifies this
      ensures errorsPrinted == old(errorsPrinted) + 1
      ensures calls == old(calls) && gilDepth == old(gilDepth)
    {
      errorsPrinted := errorsPrinted + 1;
    }
  }

  /**
   * `pyfunction::operator()`: takes the GIL, calls the callable, prints and
   * swallows a Python error if it raised one, and gives the GIL back on
   * either path.  Nothing propagates to the caller (a `SystemExit`, which
   * ends the process inside `PyErr_Print`, is not modelled).
   */
  method Invoke(py: Interpreter, callable: PyObject, arg: PyObject, raises: bool)
    requires py.Valid()
    modifies py
    ensures py.Valid()
    ensures py.gilDepth == old(py.gilDepth)
    ensures py.calls == old(py.calls) + [PyCall(callable, arg, true)]
    ensures py.errorsPrinted == old(py.errorsPrinted) + (if raises then 1 else 0)
  {
    py.EnsureGil();
    py.Call(callable, arg);
    if raises {
      // catch (const python::error_already_set&): PyErr_Print, then handle_exception
      py.PrintError();
    }
    py.ReleaseGil();
  }

  /** `notify_transaction`: hands the digest, as a byte string, to the observer. */
  method NotifyTransaction(py: Interpreter, handleNewtx: PyObject, txHash: HashDigest, raises: bool)
    requires py.Valid()
    modifies py
    ensures py.Valid()
    ensures py.gilDepth == old(py.gilDepth)
    ensures py.calls == old(py.calls) + [PyCall(handleNewtx, PyStr(HashString(txHash)), true)]
    ensures py.errorsPrinted == old(py.errorsPrinted) + (if raises then 1 else 0)
  {
    var hashStr := HashString(txHash);
    Invoke(py, handleNewtx, PyStr(hashStr), raises);
  }
}
