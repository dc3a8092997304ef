/** A model of a small demonstration of mutation through references (main.go).
    A Go variable is a piece of storage; `&x` is a reference to it and `*p = v`
    writes that storage. Here the storage of a string variable is a `StringVar`
    object, and the Go struct `Country`, which the program mutates through a
    pointer, is a class with one field per struct field. Console output is not
    modelled: the operations return the values the program would print. */
module ReferenceDemo {

  /** The string literals the program writes, in the order it writes them. */
  const OriginalName := "República Oriental del Uruguay"
  const ModifiedName := "Eastern Republic of Uruguay"
  const ChangedByFunction := "Uruguay (modified by function)"
  const ShortName := "Uruguay"
  const InitialLocation := "East of Uruguay River"
  const UpdatedLocation := "Eastern Bank of Uruguay River"

  /** The storage of a Go `string` variable; a reference to it plays `*string`. */
  class StringVar {
    var value: string

    constructor (init: string)
      ensures value == init
    {
      value := init;
    }
  }

  /** The contents of a `Country` record at one moment. */
  datatype CountryValue = CountryValue(officialName: string, commonName: string, location: string)

  /** The Go struct `Country`, whose fields can be written through a pointer. */
  class Country {
    var officialName: string
    var commonName: string
    var location: string

    constructor (officialName: string, commonName: string, location: string)
      ensures Value() == CountryValue(officialName, commonName, location)
    {
      this.officialName := officialName;
      this.commonName := commonName;
      this.location := location;
    }

    /** The record's current contents. */
    function Value(): (v: CountryValue)
      reads this
    {
      CountryValue(officialName, commonName, location)
    }
  }

  /** The record `updateLocation` leaves behind: only the location differs,
      and the record is unchanged exactly when it already had that location. */
  function Relocated(v: CountryValue): (r: CountryValue)
    ensures r.location == UpdatedLocation
    ensures r.officialName == v.officialName && r.commonName == v.commonName
    ensures r == v <==> v.location == UpdatedLocation
  {
    v.(location := UpdatedLocation)
  }

  /** `updateLocation` writes a constant, so a second call changes nothing. */
  lemma RelocatedIdempotent(v: CountryValue)
    ensures Relocated(Relocated(v)) == Relocated(v)
  {
  }

  /** The record after `n` successive `updateLocation` calls. */
  function RelocatedTimes(v: CountryValue, n: nat): (r: CountryValue)
  {
    if n == 0 then v else Relocated(RelocatedTimes(v, n - 1))
  }

  /** However many times `updateLocation` is applied (at least once), the
      record ends as after a single call. */
  lemma {:induction false} RelocatedTimesIsOnce(v: CountryValue, n: nat)
    requires n >= 1
    ensures RelocatedTimes(v, n) == Relocated(v)
  {
    if n > 1 {
      RelocatedTimesIsOnce(v, n - 1);
      RelocatedIdempotent(v);
    }
  }

  /** What `displayAndChange` shows on `n` successive calls with the same
      reference, starting from a variable holding `before`: each call shows
      the value held at the moment it is called. */
  function ShownOnCalls(before: string, n: nat): (shown: seq<string>)
    ensures |shown| == n
    ensures n > 0 ==> shown[0] == before
    decreases n
  {
    if n == 0 then [] else [before] + ShownOnCalls(ChangedByFunction, n - 1)
  }

  /** Every call after the first shows the replacement the previous call wrote,
      whatever the variable held to begin with. */
  lemma {:induction false} ShownAfterFirstCall(before: string, n: nat, i: nat)
    requires 0 < i < n
    ensures ShownOnCalls(before, n)[i] == ChangedByFunction
    decreases i
  {
    if i > 1 {
      ShownAfterFirstCall(ChangedByFunction, n - 1, i - 1);
    }
  }

  /** `displayAndChange`: shows the value reached through the reference, then
      overwrites that storage with a fixed string. Returns the value shown; the
      last ensures says that one call is the first step of `ShownOnCalls`, so
      further calls continue from the value this one leaves. */
  method DisplayAndChange(namePtr: StringVar) returns (shown: string)
    modifies namePtr`value
    ensures shown == old(namePtr.value)
    ensures namePtr.value == ChangedByFunction
    ensures forall n: nat :: n > 0 ==>
      ShownOnCalls(old(namePtr.value), n) == [shown] + ShownOnCalls(namePtr.value, n - 1)
  {
    shown := namePtr.value;
    namePtr.value := ChangedByFunction;
  }

  /** `updateLocation`: overwrites only the record's location. */
  method UpdateLocation(c: Country)
    modifies c`location
    ensures c.Value() == Relocated(old(c.Value()))
    ensures c.location == UpdatedLocation
    ensures c.officialName == old(c.officialName) && c.commonName == old(c.commonName)
  {
    c.location := UpdatedLocation;
  }

  /** The program's `main`: returns, in order, the values it prints — the name
      read directly, read through the pointer, read directly after a write
      through the pointer, shown inside `displayAndChange`, read after that
      call — and the final record. */
  method RunDemo() returns (direct: string, throughPointer: string, afterWrite: string,
                            shownInFunction: string, afterCall: string, country: CountryValue)
    ensures direct == OriginalName && throughPointer == direct
    ensures afterWrite == ModifiedName
    ensures shownInFunction == ModifiedName
    ensures afterCall == ChangedByFunction
    ensures country == CountryValue(OriginalName, ShortName, UpdatedLocation)
  {
    var countryName := new StringVar(OriginalName);
    var countryNamePtr := countryName;

    direct := countryName.value;
    throughPointer := countryNamePtr.value;

    countryNamePtr.value := ModifiedName;
    afterWrite := countryName.value;
    assert afterWrite != direct;

    shownInFunction := DisplayAndChange(countryName);
    afterCall := countryName.value;
    assert afterCall != afterWrite;

    var record := new Country(OriginalName, ShortName, InitialLocation);
    UpdateLocation(record);
    country := record.Value();
    assert country.location != InitialLocation;
  }
}
