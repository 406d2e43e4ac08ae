/** The four LGF update methods selected by the -method option of
    relaxation_wlammps.py, and the parsing of their names. Any other name is
    rejected, both when the LGF is rotated and in every relaxation cycle. */
module UpdateMethods {
  import opened Numerics

  /** Which LGF (dislocation or perfect bulk) and which regions it displaces
      (1+2+3, or 2+3 only). */
  datatype UpdateMethod = DislLGF123 | PerfbulkLGF123 | DislLGF23 | PerfbulkLGF23

  /** The method's name as it appears on the command line. */
  function MethodName(m: UpdateMethod): string
  {
    match m
    case DislLGF123 => "dislLGF123"
    case PerfbulkLGF123 => "perfbulkLGF123"
    case DislLGF23 => "dislLGF23"
    case PerfbulkLGF23 => "perfbulkLGF23"
  }

  /** String comparison against the four names; anything else is invalid. */
  function ParseMethod(name: string): (r: Option<UpdateMethod>)
    ensures r.Some? <==> name in {"dislLGF123", "perfbulkLGF123", "dislLGF23", "perfbulkLGF23"}
    ensures r.Some? ==> MethodName(r.value) == name
  {
    if name == "dislLGF123" then Some(DislLGF123)
    else if name == "perfbulkLGF123" then Some(PerfbulkLGF123)
    else if name == "dislLGF23" then Some(DislLGF23)
    else if name == "perfbulkLGF23" then Some(PerfbulkLGF23)
    else None
  }

  /** Every method is recognised by its own name, so no two methods share one. */
  lemma ParseMethodName(m: UpdateMethod)
    ensures ParseMethod(MethodName(m)) == Some(m)
  {
  }

  /** The "123" methods displace regions 1, 2 and 3 with a capped step. */
  predicate IsFull(m: UpdateMethod)
  {
    m == DislLGF123 || m == PerfbulkLGF123
  }

  /** The "disl" methods use the dislocation LGF block by block as stored. */
  predicate IsDisl(m: UpdateMethod)
  {
    m == DislLGF123 || m == DislLGF23
  }

  /** The name tests of relaxation_cycle and of the rotation setup pick out
      the same methods: the first branch of each is exactly IsFull, resp. IsDisl. */
  lemma NameTests(name: string)
    ensures ParseMethod(name).Some? && IsFull(ParseMethod(name).value)
        <==> name == "dislLGF123" || name == "perfbulkLGF123"
    ensures ParseMethod(name).Some? && IsDisl(ParseMethod(name).value)
        <==> name == "dislLGF123" || name == "dislLGF23"
  {
  }
}
