# Reference semantics demo, modelled in Dafny

The program (`main.go`) shows how a Go variable can be read and written both
directly and through a pointer. It creates a string variable, reads it
directly and through `&countryName`, writes through the pointer, hands the
pointer to `displayAndChange` (which shows the current value and overwrites
it), then builds a `Country` record and hands a pointer to it to
`updateLocation`, which overwrites only its `Location` field.

`demo.dfy` (module `ReferenceDemo`) models this on Dafny's heap:

- a Go `string` variable is a `StringVar` object; a pointer to it is a
  reference to that object, so `*p = v` is a field write that every alias sees;
- the struct `Country` is a class with the three fields, plus the value type
  `CountryValue` for its contents at one moment;
- `DisplayAndChange` and `UpdateLocation` are methods whose frames
  (`modifies namePtr`value`, `modifies c`location`) say which storage they may
  write and whose postconditions say what it becomes;
- `Relocated` is the value-level meaning of `updateLocation`, with its
  idempotence proved; `ShownOnCalls` is what successive `displayAndChange`
  calls on one pointer show, and `DisplayAndChange`'s contract says that one
  call is the first step of it;
- `RunDemo` is `main`: it returns the values `main` prints, in order.

## Model

| member | source | states |
|---|---|---|
| ReferenceDemo.DisplayAndChange | main.go:38-41 | returns the value held before the call (the one shown), leaves the referenced string equal to "Uruguay (modified by function)" whatever it held, and may write nothing but that string; the values shown by this call and any number of later ones are `ShownOnCalls` of the value held before it |
| ReferenceDemo.UpdateLocation | main.go:49-51 | the record afterwards is `Relocated` of the record before: Location is "Eastern Bank of Uruguay River", OfficialName and CommonName keep their old values, and only the Location field of the given record may change |
| ReferenceDemo.Country.constructor | main.go:28-32 | a new record holds exactly the three field values it is built with |
| ReferenceDemo.StringVar.constructor | main.go:10 | a new string variable holds its initial value |
| ReferenceDemo.Relocated | main.go:50 | the location becomes the fixed replacement, the other two fields are kept, and the record is unchanged if and only if it already had that location |
| ReferenceDemo.RelocatedIdempotent | main.go:50 | applying `updateLocation` twice gives the same record as applying it once |
| ReferenceDemo.RelocatedTimesIsOnce | main.go:49-51 | any number (at least one) of successive `updateLocation` calls gives the same record as one call |
| ReferenceDemo.ShownOnCalls | main.go:38-41 | `n` successive calls on one pointer show `n` values, the first being the value the caller held before the first call |
| ReferenceDemo.ShownAfterFirstCall | main.go:39-40 | every call after the first shows "Uruguay (modified by function)", the value the previous call wrote, whatever the variable held at first |
| ReferenceDemo.RunDemo | main.go:10-35 | reading through the pointer gives the direct value "República Oriental del Uruguay"; after the write through the pointer the variable reads "Eastern Republic of Uruguay"; `displayAndChange` shows that value and leaves "Uruguay (modified by function)"; the final record is ("República Oriental del Uruguay", "Uruguay", "Eastern Bank of Uruguay River") |

## Left out

- Console output (`fmt.Println`, main.go:15-17, 21, 25, 35, 39): the model returns the values that would be printed instead of printing them.
- The printed pointer address (main.go:16): it is runtime-defined and carries no meaning to verify.
- Go's `%v` formatting of the `Country` struct (main.go:35): library formatting; `RunDemo` returns the record's contents instead.
- Nil pointers: in Go `displayAndChange(nil)` panics at main.go:39 and `updateLocation(nil)` at main.go:50; the model's non-null `StringVar` and `Country` parameters exclude nil, since every call passes the address of a live variable (main.go:24, 34).
- Go's distinction between a variable and its address: `&countryName` is modelled as the same `StringVar` object, so the direct name and the pointer are two references to one piece of storage.
