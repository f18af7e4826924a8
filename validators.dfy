/**
 * The input validators the thermostat service calls before touching the network:
 * a temperature must lie in [-50, 50] (both ends included) and an id must be
 * non-empty once surrounding whitespace is stripped.
 */
module Validators {
  import opened Wrappers
  import opened Errors

  const MinTemperature: real := -50.0
  const MaxTemperature: real := 50.0

  /** Python's `str.isspace()` on one character: exactly the characters `str.strip()` removes. */
  predicate IsSpace(c: char) {
    var n := c as int;
    n == 0x20 || 0x09 <= n <= 0x0D || 0x1C <= n <= 0x1F || n == 0x85 || n == 0xA0
    || n == 0x1680 || 0x2000 <= n <= 0x200A || n == 0x2028 || n == 0x2029
    || n == 0x202F || n == 0x205F || n == 0x3000
  }

  predicate AllSpace(s: string) {
    forall i :: 0 <= i < |s| ==> IsSpace(s[i])
  }

  /** Number of whitespace characters `lstrip()` removes from the front of `s`. */
  function LeadingSpaces(s: string): (k: nat)
    ensures k <= |s|
    ensures forall i :: 0 <= i < k ==> IsSpace(s[i])
    ensures k < |s| ==> !IsSpace(s[k])
  {
    if s != [] && IsSpace(s[0]) then 1 + LeadingSpaces(s[1..]) else 0
  }

  /** Number of whitespace characters `rstrip()` removes from the back of `s`. */
  function TrailingSpaces(s: string): (k: nat)
    ensures k <= |s|
    ensures forall i :: |s| - k <= i < |s| ==> IsSpace(s[i])
    ensures k < |s| ==> !IsSpace(s[|s| - 1 - k])
  {
    if s != [] && IsSpace(s[|s| - 1]) then 1 + TrailingSpaces(s[..|s| - 1]) else 0
  }

  /** Python's `s.strip()`: the longest middle slice of `s` that neither starts nor ends with whitespace. */
  function Strip(s: string): (r: string)
    ensures exists i, j :: 0 <= i <= j <= |s| && r == s[i..j] && AllSpace(s[..i]) && AllSpace(s[j..])
    ensures r != [] ==> !IsSpace(r[0]) && !IsSpace(r[|r| - 1])
    ensures r == [] <==> AllSpace(s)
  {
    var i := LeadingSpaces(s);
    var j := |s| - TrailingSpaces(s[i..]);
    assert s[i..][..j - i] == s[i..j];
    assert AllSpace(s[..i]);
    assert AllSpace(s[j..]) by {
      forall k | 0 <= k < |s| - j ensures IsSpace(s[j..][k]) {
        assert s[j..][k] == s[i..][j - i + k];
      }
    }
    s[i..][..j - i]
  }

  /** True when `s.strip()` is empty: the id would be rejected as blank. */
  predicate IsBlank(s: string) {
    Strip(s) == []
  }

  /** `validate_temperature(value, field_name)`: the error it raises, if any. */
  function ValidateTemperature(value: real, fieldName: string): (e: Option<Error>)
    ensures e.None? <==> MinTemperature <= value <= MaxTemperature
    ensures e.Some? ==> e.value == ValidationError(fieldName)
  {
    if value < MinTemperature || value > MaxTemperature then Some(ValidationError(fieldName)) else None
  }

  /** The shared rule of `validate_room_id` and `validate_home_id`: the error raised, if any. */
  function ValidateId(id: string, fieldName: string): (e: Option<Error>)
    ensures e.None? <==> exists i :: 0 <= i < |id| && !IsSpace(id[i])
    ensures e.Some? ==> e.value == ValidationError(fieldName)
  {
    if IsBlank(id) then Some(ValidationError(fieldName)) else None
  }

  function ValidateRoomId(roomId: string): Option<Error> {
    ValidateId(roomId, "room_id")
  }

  function ValidateHomeId(homeId: string): Option<Error> {
    ValidateId(homeId, "home_id")
  }
}
