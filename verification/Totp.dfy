/** internal/server/totp.go:31-47: the one-time password of section 5.2 of RFC 6238. */
module Totp {
  import opened Prelude

  /** time.Unix()/30, truncated as Go's division is. */
  function StepOf(now: int): int { if now >= 0 then now / 30 else -(-now / 30) }

  const DRIFTS: seq<int> := [0, -1, 1]

  predicate Digits(s: string) { forall i | 0 <= i < |s| :: '0' <= s[i] <= '9' }

  /** What strconv.Atoi accepts in six characters. */
  predicate IsNumber(s: string) {
    if s != "" && (s[0] == '+' || s[0] == '-') then |s| > 1 && Digits(s[1..]) else s != "" && Digits(s)
  }

  /** totpCode: six digits, or nothing for a secret it cannot decode. */
  predicate IsCode(s: string) { s == "" || (|s| == 6 && Digits(s)) }

  /** unicode.IsSpace */
  predicate IsSpace(ch: char) {
    || '\t' <= ch <= '\r' || ch == ' ' || ch == '\U{85}' || ch == '\U{A0}' || ch == '\U{1680}'
    || '\U{2000}' <= ch <= '\U{200A}' || ch == '\U{2028}' || ch == '\U{2029}' || ch == '\U{202F}' || ch == '\U{205F}' || ch == '\U{3000}'
  }

  /** Where the leading white space from `i` on ends. */
  function Lead(s: string, i: nat): (a: nat)
    requires i <= |s|
    ensures i <= a <= |s| && (a < |s| ==> !IsSpace(s[a]))
    ensures forall k | i <= k < a :: IsSpace(s[k])
    decreases |s| - i
  {
    if i < |s| && IsSpace(s[i]) then Lead(s, i + 1) else i
  }

  /** Where the trailing white space up to `j` begins, not looking before `a`. */
  function Trail(s: string, a: nat, j: nat): (b: nat)
    requires a <= j <= |s|
    ensures a <= b <= j && (a < b ==> !IsSpace(s[b - 1]))
    ensures forall k | b <= k < j :: IsSpace(s[k])
  {
    if a < j && IsSpace(s[j - 1]) then Trail(s, a, j - 1) else j
  }

  /** strings.TrimSpace: only white space goes, all of it at both ends and none in between. */
  function Trimmed(s: string): (core: string)
    ensures core != "" ==> !IsSpace(core[0]) && !IsSpace(core[|core| - 1])
  {
    var a := Lead(s, 0);
    s[a..Trail(s, a, |s|)]
  }

  /** The first accepted step among those of the drifts from the i-th on. */
  function FirstMatch(codes: int -> string, given: string, current: int, i: nat): Option<int>
    requires i <= |DRIFTS|
    decreases |DRIFTS| - i
  {
    if i == |DRIFTS| then None
    else if codes(current + DRIFTS[i]) == given then Some(current + DRIFTS[i])
    else FirstMatch(codes, given, current, i + 1)
  }

  /** `codes` is totpCode for the stored secret. */
  function MatchedStep(codes: int -> string, code: string, now: int): Option<int> {
    var given := Trimmed(code);
    if |given| != 6 || !IsNumber(given) then None else FirstMatch(codes, given, StepOf(now), 0)
  }

  method MatchTOTP(codes: int -> string, code: string, now: int) returns (step: int, ok: bool)
    ensures (if ok then Some(step) else None) == MatchedStep(codes, code, now)
    ensures !ok ==> step == 0
  {
    var given := Trimmed(code);
    if |given| != 6 {
      return 0, false;
    }
    if !IsNumber(given) {
      return 0, false;
    }
    var current := StepOf(now);
    for i := 0 to |DRIFTS|
      invariant FirstMatch(codes, given, current, 0) == FirstMatch(codes, given, current, i)
    {
      step := current + DRIFTS[i];
      if codes(step) == given {
        return step, true;
      }
    }
    return 0, false;
  }

  /**
   A code is accepted if and only if, trimmed, it is the code of the current step or of a neighbour, the
   current step being preferred and then the earlier one; the numeric check never decides.
   */
  lemma {:induction false} MatchIsTheWindow(codes: int -> string, code: string, now: int)
    requires forall step :: IsCode(codes(step))
    ensures var m := MatchedStep(codes, code, now); var current := StepOf(now); var given := Trimmed(code);
      && (m.Some? <==> |given| == 6 && exists step | current - 1 <= step <= current + 1 :: codes(step) == given)
      && (m.Some? ==> codes(m.value) == given && current - 1 <= m.value <= current + 1)
      && (m.Some? && m.value != current ==> codes(current) != given)
      && (m == Some(current + 1) ==> codes(current - 1) != given)
  {
    var current, given := StepOf(now), Trimmed(code);
    forall step | codes(step) == given && |given| == 6
      ensures IsNumber(given)
    {
      assert IsCode(codes(step));
    }
    MatchIsNear(codes, code, now);
    if step :| current - 1 <= step <= current + 1 && codes(step) == given && |given| == 6 {
      assert step == current + DRIFTS[0] || step == current + DRIFTS[1] || step == current + DRIFTS[2];
      assert FirstMatch(codes, given, current, 2).Some? || codes(current + 1) != given;
    }
  }

  /** What an accepted step is worth, whatever the code generator does. */
  lemma {:induction false} MatchIsNear(codes: int -> string, code: string, now: int)
    ensures var m := MatchedStep(codes, code, now); var given := Trimmed(code);
      m.Some? ==>
        && codes(m.value) == given && StepOf(now) - 1 <= m.value <= StepOf(now) + 1
        && (m.value != StepOf(now) ==> codes(StepOf(now)) != given)
        && (m.value == StepOf(now) + 1 ==> codes(StepOf(now) - 1) != given)
  {
    var current, given := StepOf(now), Trimmed(code);
    assert FirstMatch(codes, given, current, 3) == None;
    assert FirstMatch(codes, given, current, 2) == if codes(current + 1) == given then Some(current + 1) else None;
    assert FirstMatch(codes, given, current, 1) ==
      if codes(current - 1) == given then Some(current - 1) else FirstMatch(codes, given, current, 2);
  }

  lemma StepOfIsMonotone(a: int, b: int)
    requires a <= b
    ensures StepOf(a) <= StepOf(b)
  {}
}
