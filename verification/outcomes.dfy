/**
 * Shared vocabulary of the model: optional values and results (the Python
 * code's `None` and its exceptions), integer sums, and the few Python string
 * built-ins the core relies on (`str(n)`, `str.strip()`, `sep.join(parts)`), and the account
 * types both account models share.
 */
module Outcomes {

  /** `None` or a value, as the source's nullable fields and `dict.get`. */
  datatype Option<T> = None | Some(value: T)

  /** A value, or the exception the source raises instead of returning one. */
  datatype Result<T, E> = Ok(value: T) | Err(error: E)

  /** What a Django form's `clean` raises: a ValidationError with its
      messages, or a Python error the code did not intend (a TypeError from
      comparing None with a number, a KeyError from a missing field, an
      AttributeError from calling a string method on None). */
  datatype FormError = ValidationError(messages: seq<string>) | TypeError | KeyError(key: string) | AttributeError

  /** The account types 'As', 'Li', 'Eq', 'In' and 'Ex'. */
  datatype AccountType = Asset | Liability | Equity | Income | Expense

  /** Sum of a sequence of integers, accumulated from the left. */
  function Sum(s: seq<int>): int
  {
    if s == [] then 0 else Sum(s[..|s| - 1]) + s[|s| - 1]
  }

  lemma {:induction false} SumAppend(a: seq<int>, b: seq<int>)
    ensures Sum(a + b) == Sum(a) + Sum(b)
    decreases |b|
  {
    if b == [] {
      assert a + b == a;
    } else {
      assert (a + b)[..|a + b| - 1] == a + b[..|b| - 1];
      SumAppend(a, b[..|b| - 1]);
    }
  }

  lemma {:induction false} SumNonNegative(s: seq<int>)
    requires forall i :: 0 <= i < |s| ==> s[i] >= 0
    ensures Sum(s) >= 0
    decreases |s|
  {
    if s != [] {
      SumNonNegative(s[..|s| - 1]);
    }
  }

  /** The ASCII characters Python 3's `str.strip()` removes: tab, line feed,
      vertical tab, form feed, carriage return, the four information
      separators 0x1C-0x1F, and space. */
  predicate IsWhitespace(c: char)
  {
    c == ' ' || c == '\t' || c == '\n' || c == '\r' || c == '\U{000B}' || c == '\U{000C}'
    || ('\U{001C}' <= c <= '\U{001F}')
  }

  /** `s.strip() == ''`: the string holds nothing but whitespace. */
  predicate IsBlank(s: string)
  {
    forall i :: 0 <= i < |s| ==> IsWhitespace(s[i])
  }

  predicate IsDigit(c: char)
  {
    '0' <= c <= '9'
  }

  /** The value of a decimal digit character, as `int(c)`. */
  function DigitValue(c: char): (d: nat)
    requires IsDigit(c)
    ensures d < 10
  {
    c as int - '0' as int
  }

  /** The character that `str(d)` gives for a one-digit number. */
  function DigitChar(d: nat): (c: char)
    requires d < 10
    ensures IsDigit(c) && DigitValue(c) == d
  {
    ('0' as int + d) as char
  }

  /** `str(n)` for a natural number: its decimal digits, most significant first. */
  function NatToString(n: nat): (r: string)
    ensures |r| >= 1
    ensures n < 10 <==> |r| == 1
    ensures forall i :: 0 <= i < |r| ==> IsDigit(r[i])
  {
    if n < 10 then [DigitChar(n)] else NatToString(n / 10) + [DigitChar(n % 10)]
  }

  /** Python's `sep.join(parts)`. */
  function Join(sep: char, parts: seq<string>): string
  {
    if parts == [] then []
    else if |parts| == 1 then parts[0]
    else Join(sep, parts[..|parts| - 1]) + [sep] + parts[|parts| - 1]
  }
}
