/** internal/protocol/protocol.go: the two token formats, told apart by their length; and device ids. */
module Tokens {

  const ENROLLMENT_TOKEN_LENGTH := 48
  const DEVICE_TOKEN_LENGTH := 64

  predicate LowerHex(ch: char) {
    '0' <= ch <= '9' || 'a' <= ch <= 'f'
  }

  predicate IsLowerHexToken(token: string, length: nat) {
    |token| == length && forall i | 0 <= i < |token| :: LowerHex(token[i])
  }

  predicate ValidEnrollmentToken(token: string) { IsLowerHexToken(token, ENROLLMENT_TOKEN_LENGTH) }

  predicate ValidDeviceToken(token: string) { IsLowerHexToken(token, DEVICE_TOKEN_LENGTH) }

  /** cmd/agent/state.go:87-98 */
  predicate DeviceIdChar(ch: char) {
    || 'a' <= ch <= 'z' || 'A' <= ch <= 'Z' || '0' <= ch <= '9'
    || ch == '-' || ch == '_' || ch == '.' || ch == ':'
  }

  predicate ValidDeviceId(id: string) {
    1 <= |id| <= 128 && forall i | 0 <= i < |id| :: DeviceIdChar(id[i])
  }

  method ValidAgentDeviceID(id: string) returns (valid: bool)
    ensures valid <==> ValidDeviceId(id)
  {
    if |id| < 1 || |id| > 128 {
      return false;
    }
    for i := 0 to |id|
      invariant forall k | 0 <= k < i :: DeviceIdChar(id[k])
    {
      if !DeviceIdChar(id[i]) {
        return false;
      }
    }
    return true;
  }

  method ValidLowerHexToken(token: string, length: nat) returns (valid: bool)
    ensures valid <==> IsLowerHexToken(token, length)
  {
    if |token| != length {
      return false;
    }
    for i := 0 to |token|
      invariant forall k | 0 <= k < i :: LowerHex(token[k])
    {
      if (token[i] < '0' || token[i] > '9') && (token[i] < 'a' || token[i] > 'f') {
        return false;
      }
    }
    return true;
  }
}
