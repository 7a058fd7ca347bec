/** Shared vocabulary of the model: optional values, the errors the add-on
    raises, results, and the small string operations Python gives it for free
    (`or`, `strip()`, `startswith`, slicing). */
module Base {

  /** A value that may be absent: an empty many-to-one, `None` or `False`. */
  datatype Option<+T> = None | Some(value: T)

  /** The exceptions the add-on can raise, with the message it passes. */
  datatype Error =
    | UserError(message: string)
    | ValidationError(message: string)
    | NameError(name: string)
    | TypeError(message: string)

  /** The outcome of an operation that either returns a value or raises. */
  datatype Result<+T> = Ok(value: T) | Err(error: Error)

  /** The outcome of a check that returns nothing or raises. */
  datatype Outcome = Pass | Fail(error: Error)

  /** An ORM `Char` field: `False` when unset, otherwise a string. */
  type Char = Option<string>

  /** Python truthiness of a `Char` value: set and non-empty. */
  predicate Truthy(c: Char) {
    c.Some? && c.value != ""
  }

  /** Python's `c or fallback` for a `Char` value. */
  function OrElse(c: Char, fallback: string): (r: string)
    ensures Truthy(c) ==> r == c.value
    ensures !Truthy(c) ==> r == fallback
  {
    if Truthy(c) then c.value else fallback
  }

  /** The name `_` a module uses without importing it: calling it raises
      `NameError` naming it. */
  const MissingTranslation: string := "_"

  /** The characters Python's `str.isspace()` accepts, which `str.strip()` removes. */
  predicate IsSpace(ch: char) {
    || ch == ' ' || ch == '\t' || ch == '\n' || ch == '\r' || ch == '\U{000B}' || ch == '\U{000C}'
    || ('\U{001C}' <= ch <= '\U{001F}') || ch == '\U{0085}' || ch == '\U{00A0}' || ch == '\U{1680}'
    || ('\U{2000}' <= ch <= '\U{200A}') || ch == '\U{2028}' || ch == '\U{2029}' || ch == '\U{202F}'
    || ch == '\U{205F}' || ch == '\U{3000}'
  }

  /** `s` with its leading white space removed. */
  function StripLeft(s: string): (r: string)
    ensures |r| <= |s| && r == s[|s| - |r|..]
    ensures forall i :: 0 <= i < |s| - |r| ==> IsSpace(s[i])
    ensures r == [] || !IsSpace(r[0])
  {
    if |s| > 0 && IsSpace(s[0]) then StripLeft(s[1..]) else s
  }

  /** `s` with its trailing white space removed. */
  function StripRight(s: string): (r: string)
    ensures |r| <= |s| && r == s[..|r|]
    ensures forall i :: |r| <= i < |s| ==> IsSpace(s[i])
    ensures r == [] || !IsSpace(r[|r| - 1])
  {
    if |s| > 0 && IsSpace(s[|s| - 1]) then StripRight(s[..|s| - 1]) else s
  }

  /** Python's `s.strip()`: the longest infix of `s` that neither starts nor
      ends with white space, once only white space has been cut away. */
  function Strip(s: string): (r: string)
    ensures |r| <= |s|
    ensures exists a, b :: 0 <= a <= b <= |s| && r == s[a..b]
                           && (forall i :: 0 <= i < a ==> IsSpace(s[i]))
                           && (forall i :: b <= i < |s| ==> IsSpace(s[i]))
    ensures r == [] || (!IsSpace(r[0]) && !IsSpace(r[|r| - 1]))
    ensures (forall i :: 0 <= i < |s| ==> !IsSpace(s[i])) ==> r == s
  {
    var left := StripLeft(s);
    var r := StripRight(left);
    TrimmedInfix(s, left, r);
    r
  }

  /** Cutting white space from the front of `s`, then from the back of what
      is left, leaves an infix of `s` with only white space around it. */
  lemma TrimmedInfix(s: string, left: string, r: string)
    requires |left| <= |s| && left == s[|s| - |left|..]
    requires forall i :: 0 <= i < |s| - |left| ==> IsSpace(s[i])
    requires |r| <= |left| && r == left[..|r|]
    requires forall i :: |r| <= i < |left| ==> IsSpace(left[i])
    ensures exists a, b :: 0 <= a <= b <= |s| && r == s[a..b]
                           && (forall i :: 0 <= i < a ==> IsSpace(s[i]))
                           && (forall i :: b <= i < |s| ==> IsSpace(s[i]))
  {
    var a := |s| - |left|;
    var b := a + |r|;
    assert r == s[a..b];
    forall i | b <= i < |s|
      ensures IsSpace(s[i])
    {
      assert s[i] == left[i - a];
    }
  }

  /** Python's `s.startswith(prefix)`. */
  predicate StartsWith(s: string, prefix: string) {
    |prefix| <= |s| && s[..|prefix|] == prefix
  }

  /** Python's `s[:n]` for `n >= 0`. */
  function Take(s: string, n: nat): (r: string)
    ensures |r| <= n && |r| <= |s|
    ensures |s| <= n ==> r == s
    ensures |s| > n ==> |r| == n
    ensures r == s[..|r|]
  {
    if |s| <= n then s else s[..n]
  }

  /** An ORM `@api.constrains` loop: each record is checked in order and the
      first failure is raised. */
  function CheckEach<T>(records: seq<T>, check: T -> Outcome): Outcome
  {
    if |records| == 0 then Pass
    else if check(records[0]).Fail? then check(records[0])
    else CheckEach(records[1..], check)
  }

  /** A recordset passes iff every record passes, and otherwise the error raised
      is that of the first record that fails. */
  lemma {:induction false} CheckEachFirstFailure<T>(records: seq<T>, check: T -> Outcome)
    ensures CheckEach(records, check).Pass? <==> forall i :: 0 <= i < |records| ==> check(records[i]).Pass?
    ensures CheckEach(records, check).Fail? ==>
              exists i :: 0 <= i < |records| && check(records[i]) == CheckEach(records, check)
                          && forall j :: 0 <= j < i ==> check(records[j]).Pass?
  {
    if |records| > 0 && !check(records[0]).Fail? {
      CheckEachFirstFailure(records[1..], check);
      var r := CheckEach(records, check);
      if r.Fail? {
        var k :| 0 <= k < |records[1..]| && check(records[1..][k]) == r
                 && forall j :: 0 <= j < k ==> check(records[1..][j]).Pass?;
        assert check(records[k + 1]) == r;
        assert forall j :: 0 <= j < k + 1 ==> check(records[j]).Pass? by {
          forall j | 0 <= j < k + 1
            ensures check(records[j]).Pass?
          {
            if j > 0 {
              assert records[j] == records[1..][j - 1];
            }
          }
        }
      } else {
        assert forall i :: 0 <= i < |records| ==> check(records[i]).Pass? by {
          forall i | 0 <= i < |records|
            ensures check(records[i]).Pass?
          {
            if i > 0 {
              assert records[i] == records[1..][i - 1];
            }
          }
        }
      }
    }
  }
}
