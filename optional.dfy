/** `GOAT::optional<T>`: a value slot plus a flag saying whether it has been assigned. */
module GoatOptional {
  import opened Types

  class Optional<T(==,0)> {
    var hasValue: bool
    var value: T

    /** The abstract state: the held value, or `None` while nothing has been assigned. */
    function State(): Option<T>
      reads this
    {
      if hasValue then Some(value) else None
    }

    /** Default construction leaves the flag false; the value slot is indeterminate. */
    constructor ()
      ensures State() == None
    {
      hasValue := false;
    }

    function HasValue(): (r: bool)
      reads this
      ensures r <==> State().Some?
    {
      hasValue
    }

    /** Meaningful only while a value is held: what is read back is what was stored. */
    function Value(): (r: T)
      reads this
      ensures HasValue() ==> State() == Some(r)
    {
      value
    }

    /** `operator==(T const &)`: an empty optional equals nothing. */
    function Equals(rhs: T): (r: bool)
      reads this
      ensures r <==> State() == Some(rhs)
      ensures !HasValue() ==> !r
    {
      hasValue && value == rhs
    }

    /** `operator=(T const &)`; returns the optional itself. */
    method AssignCopy(rhs: T) returns (self: Optional<T>)
      modifies this
      ensures self == this
      ensures HasValue() && Value() == rhs && Equals(rhs)
      ensures State() == Some(rhs)
      ensures old(State()) == Some(rhs) ==> State() == old(State())
    {
      value := rhs;
      hasValue := true;
      self := this;
    }

    /** `operator=(T const &&)`: moving from a const value copies it, so this behaves as `AssignCopy`. */
    method AssignMove(rhs: T) returns (self: Optional<T>)
      modifies this
      ensures self == this
      ensures HasValue() && Value() == rhs && Equals(rhs)
      ensures State() == Some(rhs)
      ensures old(State()) == Some(rhs) ==> State() == old(State())
    {
      value := rhs;
      hasValue := true;
      self := this;
    }
  }
}
