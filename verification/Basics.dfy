/** Shared vocabulary: results, optional values, Go's `strings.TrimSpace` and int64 arithmetic. */
module Basics {

  datatype Option<+T> = None | Some(value: T)

  /** Why a call was refused. The message texts of the source are grouped by the rule they report. */
  datatype Refusal =
    | BadField
    | UnknownRecord
    | AlreadyExists
    | WrongStatus
    | NotAuthorised
    | OutOfScope
    | InvoiceVoided
    | InvoiceInUse
    | WrongProjectLink
    | AmountInvalid
    | InsufficientBalance
    | BalanceInconsistent
    | NumberTaken
    | OpenClaims

  datatype Result<+T> = Ok(value: T) | Refused(reason: Refusal) {
    predicate IsFailure() { Refused? }

    function PropagateFailure<U>(): Result<U>
      requires Refused?
    {
      Refused(reason)
    }

    function Extract(): T
      requires Ok?
    {
      value
    }
  }

  /** A check without a value. */
  datatype Outcome = Pass | Fail(reason: Refusal) {
    predicate IsFailure() { Fail? }

    function PropagateFailure<U>(): Result<U>
      requires Fail?
    {
      Refused(reason)
    }
  }

  function Need(condition: bool, reason: Refusal): Outcome {
    if condition then Pass else Fail(reason)
  }

  function Check(condition: bool, reason: Refusal): Result<()> {
    if condition then Ok(()) else Refused(reason)
  }

  // ----- strings.TrimSpace -----

  /** `unicode.IsSpace`. */
  predicate IsSpace(c: char) {
    || c == ' ' || '\U{9}' <= c <= '\U{D}' || c == '\U{85}' || c == '\U{A0}'
    || c == '\U{1680}' || '\U{2000}' <= c <= '\U{200A}' || c == '\U{2028}' || c == '\U{2029}'
    || c == '\U{202F}' || c == '\U{205F}' || c == '\U{3000}'
  }

  predicate Trimmed(s: string) {
    s == "" || (!IsSpace(s[0]) && !IsSpace(s[|s| - 1]))
  }

  function TrimSpace(s: string): (t: string)
    ensures Trimmed(t)
    ensures Trimmed(s) <==> t == s
    ensures |t| <= |s|
    decreases |s|
  {
    if s == "" then s
    else if IsSpace(s[0]) then TrimSpace(s[1..])
    else if IsSpace(s[|s| - 1]) then TrimSpace(s[..|s| - 1])
    else s
  }

  /** The characters that are cut off. */
  const SPACES: set<char> := {
    '\U{9}', '\U{A}', '\U{B}', '\U{C}', '\U{D}', ' ', '\U{85}', '\U{A0}', '\U{1680}',
    '\U{2000}', '\U{2001}', '\U{2002}', '\U{2003}', '\U{2004}', '\U{2005}', '\U{2006}', '\U{2007}', '\U{2008}', '\U{2009}', '\U{200A}',
    '\U{2028}', '\U{2029}', '\U{202F}', '\U{205F}', '\U{3000}'}

  lemma IsSpaceIff(c: char)
    ensures IsSpace(c) <==> c in SPACES
  {}

  predicate AllSpace(s: string) { forall c :: c in s ==> IsSpace(c) }

  /** What is left is the text without the space in front of it and behind it. */
  lemma {:induction false} TrimCutsSpace(s: string) returns (front: string, back: string)
    ensures s == front + TrimSpace(s) + back && AllSpace(front) && AllSpace(back)
    decreases |s|
  {
    hide IsSpace;
    if s != "" && IsSpace(s[0]) {
      front, back := TrimCutsSpace(s[1..]);
      assert s == [s[0]] + s[1..];
      assert s == [s[0]] + front + TrimSpace(s) + back;
      front := [s[0]] + front;
    } else if s != "" && IsSpace(s[|s| - 1]) {
      front, back := TrimCutsSpace(s[..|s| - 1]);
      assert s == s[..|s| - 1] + [s[|s| - 1]];
      assert s == front + TrimSpace(s) + (back + [s[|s| - 1]]);
      back := back + [s[|s| - 1]];
    } else {
      front, back := "", "";
    }
  }

  // ----- int64 -----

  const TWO63: int := 0x8000_0000_0000_0000
  const MAX_INT64: int := TWO63 - 1

  /** The int64 value that Go's `+` and `-` leave in place of the mathematical result `x`. */
  function Wrap64(x: int): (r: int)
    ensures -TWO63 <= r < TWO63
    ensures -TWO63 <= x < TWO63 ==> r == x
  {
    if -TWO63 <= x < TWO63 then x else (x + TWO63) % (2 * TWO63) - TWO63
  }

  /** It differs from the mathematical result by a multiple of 2^64. */
  lemma Wrap64IsModulo(x: int)
    ensures (x - Wrap64(x)) % 0x1_0000_0000_0000_0000 == 0
  {
    if !(-TWO63 <= x < TWO63) {
      var m := 2 * TWO63;
      assert x + TWO63 == (x + TWO63) / m * m + (x + TWO63) % m;
      assert x - Wrap64(x) == (x + TWO63) / m * m;
    }
  }
}
