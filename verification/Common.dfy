/** Shapes every component uses: optional values, refusals, and small sequence facts. */
module Common {

  datatype Option<+T> = None | Some(value: T) {
    function GetOr(default: T): T {
      if Some? then value else default
    }
  }

  /** The source's thrown errors: an operation yields a value or the reason it was refused. */
  datatype Result<+T, +E> = Ok(value: T) | Err(error: E)

  /** Identities: a random UUID the daemon mints (numbered, so that two mints never agree) or a name
      chosen elsewhere, such as an operation ID, an annotation ID or a comment ID. */
  datatype Id = Uuid(serial: nat) | Key(name: string)

  ghost predicate Distinct<T>(s: seq<T>) {
    forall i, j :: 0 <= i < j < |s| ==> s[i] != s[j]
  }

  /** Array.prototype.find, as an index: the first element that passes, or the length. */
  function FirstWhere<T>(s: seq<T>, passes: T -> bool): (n: nat)
    ensures n <= |s|
    ensures n < |s| ==> passes(s[n])
    ensures forall i :: 0 <= i < n ==> !passes(s[i])
  {
    if s == [] || passes(s[0]) then 0 else 1 + FirstWhere(s[1..], passes)
  }
}
