/** Shared vocabulary of the ShopStream backend model: identifiers, money,
    time, the error kinds the services throw, and the few string operations
    of the .NET base library that the services rely on. */
module Common {

  /** A Guid is an opaque identifier; only equality matters to the services. */
  type Guid = nat

  /** Money is `decimal` with precision (18,2): an exact number of cents. */
  type Cents = int

  /** A point in time (DateTime.UtcNow), in seconds. */
  type Time = int

  datatype Option<T> = None | Some(value: T)

  /** The exceptions the services throw, one constructor per exception type. */
  datatype Error =
    | NotFound(entity: string, id: Guid)     // KeyNotFoundException
    | InvalidOperation(message: string)      // InvalidOperationException
    | Unauthorized(message: string)          // UnauthorizedAccessException
    | NotSupported(message: string)          // NotSupportedException
    | NotImplemented(message: string)        // NotImplementedException
    | ConstraintViolation(constraint: Constraint)   // DbUpdateException: the schema refused the save

  /** The constraints of the schema a save can break. */
  datatype Constraint =
    | UniqueSku              // unique index on Products.SKU
    | ProductReferenced      // Restrict key from CartItems and OrderItems to Products
    | ShippingAddressKey     // Restrict key from Orders.ShippingAddressId to Addresses

  /** A call either returns a value or throws. */
  datatype Result<T> = Ok(value: T) | Err(error: Error)

  /** A call that returns nothing either completes or throws. */
  datatype Outcome = Done | Failed(error: Error)

  function Max(a: int, b: int): int { if a < b then b else a }
  function Min(a: int, b: int): int { if a < b then a else b }

  // ---------------------------------------------------------------------
  // Case mapping (ASCII letters only)
  // ---------------------------------------------------------------------

  function ToLowerChar(c: char): char
  {
    if 'A' <= c <= 'Z' then (c as int + 32) as char else c
  }

  function ToUpperChar(c: char): char
  {
    if 'a' <= c <= 'z' then (c as int - 32) as char else c
  }

  /** string.ToLower() */
  function ToLower(s: string): (r: string)
    ensures |r| == |s|
    ensures forall i :: 0 <= i < |s| ==> r[i] == ToLowerChar(s[i])
  {
    seq(|s|, i requires 0 <= i < |s| => ToLowerChar(s[i]))
  }

  /** string.ToUpper() */
  function ToUpper(s: string): (r: string)
    ensures |r| == |s|
    ensures forall i :: 0 <= i < |s| ==> r[i] == ToUpperChar(s[i])
  {
    seq(|s|, i requires 0 <= i < |s| => ToUpperChar(s[i]))
  }

  /** string.Equals(a, b, StringComparison.OrdinalIgnoreCase): both sides are
      compared character by character after mapping to upper case. */
  predicate EqualsIgnoreCase(a: string, b: string)
  {
    ToUpper(a) == ToUpper(b)
  }

  // ---------------------------------------------------------------------
  // Whitespace and substrings
  // ---------------------------------------------------------------------

  /** char.IsWhiteSpace restricted to the ASCII white-space characters. */
  predicate IsWhiteSpace(c: char)
  {
    c == ' ' || c == '\t' || c == '\n' || c == '\r' || c == '\U{000B}' || c == '\U{000C}'
  }

  /** string.IsNullOrWhiteSpace, with null as None. */
  predicate IsNullOrWhiteSpace(s: Option<string>)
  {
    s.None? || forall i :: 0 <= i < |s.value| ==> IsWhiteSpace(s.value[i])
  }

  /** string.StartsWith(prefix), ordinal. */
  predicate StartsWith(s: string, prefix: string)
  {
    |prefix| <= |s| && s[..|prefix|] == prefix
  }

  /** sub occurs in s starting at position i. */
  predicate OccursAt(s: string, sub: string, i: int)
  {
    0 <= i <= |s| - |sub| && s[i..i + |sub|] == sub
  }

  /** string.Contains(sub), ordinal: sub occurs at some position of s. */
  predicate Contains(s: string, sub: string)
  {
    exists i :: 0 <= i <= |s| - |sub| && OccursAt(s, sub, i)
  }

  /** s with every occurrence of c removed (string.Replace(c, "")). */
  function RemoveChar(s: string, c: char): (r: string)
    ensures |r| <= |s|
    ensures forall i :: 0 <= i < |r| ==> r[i] != c
    ensures forall x :: x in r <==> x in s && x != c
  {
    if s == [] then []
    else (if s[0] == c then [] else [s[0]]) + RemoveChar(s[1..], c)
  }
}
