/**
 * The ARK-friendly account ordering of itkufs/common/utils.py: accounts whose
 * short name is a radio callsign starting with "LA" come first, then "LB",
 * then other callsigns, then everything else; ties are broken by name, and
 * the sort is stable as Python's `sorted` is.
 */
module Callsign {
  import opened Outcomes

  /** What `callsign_key` reads of an account: its short name (possibly None) and its name. */
  datatype AccountRow = AccountRow(shortName: Option<string>, name: string)

  /** The sort key `(index, account.name)`. */
  datatype SortKey = SortKey(index: nat, name: string)

  predicate IsUpper(c: char)
  {
    'A' <= c <= 'Z'
  }

  predicate IsUpperOrDigit(c: char)
  {
    IsUpper(c) || IsDigit(c)
  }

  // ---------------------------------------------------------------------------
  // CALLSIGN_RE = ^[A-Z]+[0-9][A-Z0-9]*[A-Z]$

  /** The pattern read piece by piece: a run of letters up to a digit at i,
      then letters or digits, then a final letter. */
  ghost predicate PatternMatch(s: string)
  {
    exists i :: 1 <= i < |s| - 1 && IsDigit(s[i])
      && (forall j :: 0 <= j < i ==> IsUpper(s[j]))
      && (forall j :: i < j < |s| - 1 ==> IsUpperOrDigit(s[j]))
      && IsUpper(s[|s| - 1])
  }

  /** Python's `$` also matches just before a trailing newline. */
  ghost predicate RegexMatch(s: string)
  {
    PatternMatch(s) || (|s| > 0 && s[|s| - 1] == '\n' && PatternMatch(s[..|s| - 1]))
  }

  /** The same language, checked in one pass: upper-case letters and digits
      only, a letter at both ends, and at least one digit. */
  predicate CallsignShape(s: string)
  {
    && |s| >= 3
    && IsUpper(s[0])
    && IsUpper(s[|s| - 1])
    && (forall j :: 0 <= j < |s| ==> IsUpperOrDigit(s[j]))
    && (exists j :: 0 <= j < |s| && IsDigit(s[j]))
  }

  /** Index of the first digit of s, or |s|. */
  function FirstDigit(s: string): (k: nat)
    ensures k <= |s|
    ensures forall j :: 0 <= j < k ==> !IsDigit(s[j])
    ensures k < |s| ==> IsDigit(s[k])
  {
    if s == [] then 0 else if IsDigit(s[0]) then 0 else 1 + FirstDigit(s[1..])
  }

  lemma ShapeImpliesPattern(s: string)
    requires CallsignShape(s)
    ensures PatternMatch(s)
  {
    var i := FirstDigit(s);
    assert 0 < i < |s| - 1;
    forall j | 0 <= j < i
      ensures IsUpper(s[j])
    {
      assert IsUpperOrDigit(s[j]) && !IsDigit(s[j]);
    }
    assert IsDigit(s[i]);
  }

  lemma PatternImpliesShape(s: string)
    requires PatternMatch(s)
    ensures CallsignShape(s)
  {
    var i :| 1 <= i < |s| - 1 && IsDigit(s[i])
      && (forall j :: 0 <= j < i ==> IsUpper(s[j]))
      && (forall j :: i < j < |s| - 1 ==> IsUpperOrDigit(s[j]))
      && IsUpper(s[|s| - 1]);
    forall j | 0 <= j < |s|
      ensures IsUpperOrDigit(s[j])
    {
      if j < i {
        assert IsUpper(s[j]);
      }
    }
  }

  /** The one-pass check accepts exactly the strings the pattern matches. */
  lemma ShapeIffPattern(s: string)
    ensures CallsignShape(s) <==> PatternMatch(s)
  {
    if CallsignShape(s) {
      ShapeImpliesPattern(s);
    }
    if PatternMatch(s) {
      PatternImpliesShape(s);
    }
  }

  /** `CALLSIGN_RE.match(s)` is truthy. */
  predicate IsCallsign(s: string)
    ensures IsCallsign(s) <==> RegexMatch(s)
  {
    ShapeIffPattern(s);
    if |s| > 0 && s[|s| - 1] == '\n' then ShapeIffPattern(s[..|s| - 1]);
      CallsignShape(s) || CallsignShape(s[..|s| - 1])
    else CallsignShape(s)
  }

  predicate StartsWith(s: string, prefix: string)
  {
    |prefix| <= |s| && s[..|prefix|] == prefix
  }

  /** The `index` half of `callsign_key`: 1 for "LA" callsigns, 2 for "LB"
      callsigns, 3 for other callsigns, 4 for anything else, including a
      missing or empty short name. */
  function CallsignIndex(shortName: Option<string>): (k: nat)
    ensures 1 <= k <= 4
    ensures k < 4 <==> shortName.Some? && RegexMatch(shortName.value)
    ensures k == 1 <==> k < 4 && StartsWith(shortName.value, "LA")
    ensures k == 2 <==> k < 4 && StartsWith(shortName.value, "LB")
  {
    match shortName
    case None => 4
    case Some(s) =>
      if s == "" || !IsCallsign(s) then 4
      else if StartsWith(s, "LA") then 1
      else if StartsWith(s, "LB") then 2
      else 3
  }

  function CallsignKey(a: AccountRow): SortKey
  {
    SortKey(CallsignIndex(a.shortName), a.name)
  }

  // ---------------------------------------------------------------------------
  // Python's ordering of keys: tuples lexicographically, strings by code point

  predicate StrLe(a: string, b: string)
  {
    if a == [] then true
    else if b == [] then false
    else if a[0] != b[0] then a[0] < b[0]
    else StrLe(a[1..], b[1..])
  }

  predicate KeyLe(x: SortKey, y: SortKey)
  {
    x.index < y.index || (x.index == y.index && StrLe(x.name, y.name))
  }

  lemma {:induction false} StrLeReflexive(a: string)
    ensures StrLe(a, a)
    decreases |a|
  {
    if a != [] {
      StrLeReflexive(a[1..]);
    }
  }

  lemma {:induction false} StrLeTotal(a: string, b: string)
    ensures StrLe(a, b) || StrLe(b, a)
    decreases |a|
  {
    if a != [] && b != [] && a[0] == b[0] {
      StrLeTotal(a[1..], b[1..]);
    }
  }

  lemma {:induction false} StrLeTransitive(a: string, b: string, c: string)
    requires StrLe(a, b) && StrLe(b, c)
    ensures StrLe(a, c)
    decreases |a|
  {
    if a != [] && b != [] && c != [] && a[0] == b[0] && b[0] == c[0] {
      StrLeTransitive(a[1..], b[1..], c[1..]);
    }
  }

  /** Keys are totally ordered: a key that is not below another is above it,
      and differs from it. */
  lemma KeyNotLe(x: SortKey, y: SortKey)
    requires !KeyLe(x, y)
    ensures KeyLe(y, x) && x != y
  {
    StrLeTotal(x.name, y.name);
    if x == y {
      StrLeReflexive(x.name);
    }
  }

  lemma KeyLeTransitive(x: SortKey, y: SortKey, z: SortKey)
    requires KeyLe(x, y) && KeyLe(y, z)
    ensures KeyLe(x, z)
  {
    if x.index == y.index == z.index {
      StrLeTransitive(x.name, y.name, z.name);
    }
  }

  // ---------------------------------------------------------------------------
  // callsign_sorted

  ghost predicate SortedByKey(s: seq<AccountRow>, key: AccountRow -> SortKey)
  {
    forall i, j :: 0 <= i < j < |s| ==> KeyLe(key(s[i]), key(s[j]))
  }

  /** The accounts of s whose key is k, in their order in s. */
  function WithKey(s: seq<AccountRow>, k: SortKey, key: AccountRow -> SortKey): seq<AccountRow>
  {
    if s == [] then []
    else (if key(s[0]) == k then [s[0]] else []) + WithKey(s[1..], k, key)
  }

  /** Insertion of x before the first account whose key is not below x's. */
  function Insert(x: AccountRow, s: seq<AccountRow>, key: AccountRow -> SortKey): seq<AccountRow>
  {
    if s == [] then [x]
    else if KeyLe(key(x), key(s[0])) then [x] + s
    else [s[0]] + Insert(x, s[1..], key)
  }

  lemma {:induction false} InsertPermutes(x: AccountRow, s: seq<AccountRow>, key: AccountRow -> SortKey)
    ensures multiset(Insert(x, s, key)) == multiset(s) + multiset{x}
    decreases |s|
  {
    if s != [] {
      assert s == [s[0]] + s[1..];
      InsertPermutes(x, s[1..], key);
    }
  }

  lemma {:induction false} InsertSorted(x: AccountRow, s: seq<AccountRow>, key: AccountRow -> SortKey)
    requires SortedByKey(s, key)
    ensures SortedByKey(Insert(x, s, key), key)
    decreases |s|
  {
    var r := Insert(x, s, key);
    if s == [] {
    } else if KeyLe(key(x), key(s[0])) {
      assert r[1..] == s;
      forall i, j | 0 <= i < j < |r|
        ensures KeyLe(key(r[i]), key(r[j]))
      {
        if i == 0 && j > 1 {
          KeyLeTransitive(key(x), key(s[0]), key(s[j - 1]));
        }
      }
    } else {
      var t := Insert(x, s[1..], key);
      assert r == [s[0]] + t;
      InsertPermutes(x, s[1..], key);
      assert SortedByKey(s[1..], key);
      InsertSorted(x, s[1..], key);
      KeyNotLe(key(x), key(s[0]));
      forall j | 0 < j < |r|
        ensures KeyLe(key(r[0]), key(r[j]))
      {
        assert r[j] == t[j - 1];
        assert r[j] in multiset(t);
        if r[j] != x {
          assert r[j] in multiset(s[1..]);
          var m :| 0 <= m < |s[1..]| && s[1..][m] == r[j];
          assert s[m + 1] == r[j];
        }
      }
      forall i, j | 0 <= i < j < |r|
        ensures KeyLe(key(r[i]), key(r[j]))
      {
        if i > 0 {
          assert r[i] == t[i - 1] && r[j] == t[j - 1];
        }
      }
    }
  }

  /** Insertion places x after every account of a smaller key, so among the
      accounts that share x's key, x comes first. */
  lemma {:induction false} InsertWithKey(x: AccountRow, s: seq<AccountRow>, k: SortKey, key: AccountRow -> SortKey)
    ensures WithKey(Insert(x, s, key), k, key) == (if key(x) == k then [x] else []) + WithKey(s, k, key)
    decreases |s|
  {
    if s == [] {
      WithKeyCons(x, [], k, key);
    } else if KeyLe(key(x), key(s[0])) {
      WithKeyCons(x, s, k, key);
    } else {
      InsertWithKey(x, s[1..], k, key);
      InsertWithKeyStep(x, s, k, key);
    }
  }

  /** The step of InsertWithKey where x goes past s[0], whose key differs from x's. */
  lemma InsertWithKeyStep(x: AccountRow, s: seq<AccountRow>, k: SortKey, key: AccountRow -> SortKey)
    requires s != [] && !KeyLe(key(x), key(s[0]))
    requires WithKey(Insert(x, s[1..], key), k, key) == (if key(x) == k then [x] else []) + WithKey(s[1..], k, key)
    ensures WithKey(Insert(x, s, key), k, key) == (if key(x) == k then [x] else []) + WithKey(s, k, key)
  {
    var t := Insert(x, s[1..], key);
    var head := if key(s[0]) == k then [s[0]] else [];
    var mine := if key(x) == k then [x] else [];
    var rest := WithKey(s[1..], k, key);
    assert WithKey(Insert(x, s, key), k, key) == head + WithKey(t, k, key) by {
      assert Insert(x, s, key) == [s[0]] + t;
      WithKeyCons(s[0], t, k, key);
    }
    assert WithKey(s, k, key) == head + rest;
    assert head == [] || mine == [] by {
      KeyNotLe(key(x), key(s[0]));
    }
    SwapPastEmpty(head, mine, rest);
  }

  lemma SwapPastEmpty(head: seq<AccountRow>, mine: seq<AccountRow>, rest: seq<AccountRow>)
    requires head == [] || mine == []
    ensures head + (mine + rest) == mine + (head + rest)
  {
    if head == [] {
      assert head + (mine + rest) == mine + rest;
    } else {
      assert mine + (head + rest) == head + rest;
    }
  }

  lemma WithKeyCons(y: AccountRow, t: seq<AccountRow>, k: SortKey, key: AccountRow -> SortKey)
    ensures WithKey([y] + t, k, key) == (if key(y) == k then [y] else []) + WithKey(t, k, key)
  {
    assert ([y] + t)[1..] == t;
  }

  /** Python's `sorted(accounts, key=key)`, as an insertion sort. */
  function SortBy(accounts: seq<AccountRow>, key: AccountRow -> SortKey): (r: seq<AccountRow>)
    ensures multiset(r) == multiset(accounts)
  {
    if accounts == [] then []
    else
      assert accounts == [accounts[0]] + accounts[1..];
      InsertPermutes(accounts[0], SortBy(accounts[1..], key), key);
      Insert(accounts[0], SortBy(accounts[1..], key), key)
  }

  lemma {:induction false} SortByOrdered(accounts: seq<AccountRow>, key: AccountRow -> SortKey)
    ensures SortedByKey(SortBy(accounts, key), key)
    decreases |accounts|
  {
    if accounts != [] {
      SortByOrdered(accounts[1..], key);
      InsertSorted(accounts[0], SortBy(accounts[1..], key), key);
    }
  }

  lemma {:induction false} SortByStable(accounts: seq<AccountRow>, k: SortKey, key: AccountRow -> SortKey)
    ensures WithKey(SortBy(accounts, key), k, key) == WithKey(accounts, k, key)
    decreases |accounts|
  {
    if accounts != [] {
      SortByStable(accounts[1..], k, key);
      InsertWithKey(accounts[0], SortBy(accounts[1..], key), k, key);
    }
  }

  /** callsign_sorted: `sorted(accounts, key=callsign_key)`; the result holds
      the same accounts. */
  function CallsignSorted(accounts: seq<AccountRow>): (r: seq<AccountRow>)
    ensures multiset(r) == multiset(accounts)
  {
    SortBy(accounts, CallsignKey)
  }

  /** The result is ordered by (index, name). */
  lemma CallsignSortedOrdered(accounts: seq<AccountRow>)
    ensures SortedByKey(CallsignSorted(accounts), CallsignKey)
  {
    SortByOrdered(accounts, CallsignKey);
  }

  /** The sort is stable: accounts with equal keys keep their input order. */
  lemma CallsignSortedStable(accounts: seq<AccountRow>, k: SortKey)
    ensures WithKey(CallsignSorted(accounts), k, CallsignKey) == WithKey(accounts, k, CallsignKey)
  {
    SortByStable(accounts, k, CallsignKey);
  }

  /** The four index classes in their promised order. */
  lemma CallsignIndexExamples()
    ensures CallsignIndex(Some("LA1ABC")) == 1
    ensures CallsignIndex(Some("LB2XY")) == 2
    ensures CallsignIndex(Some("SM5AB")) == 3
    ensures CallsignIndex(Some("LA")) == 4
    ensures CallsignIndex(Some("")) == 4
    ensures CallsignIndex(None) == 4
  {
    ExampleShape("LA1ABC");
    ExampleShape("LB2XY");
    ExampleShape("SM5AB");
    assert "LA1ABC"[..2] == "LA";
    assert "LB2XY"[..2] == "LB";
    assert "SM5AB"[0] == 'S';
  }

  /** A string of letters with a digit in third place and a final letter is a callsign. */
  lemma ExampleShape(s: string)
    requires |s| >= 4 && IsDigit(s[2]) && IsUpper(s[|s| - 1])
    requires forall j :: 0 <= j < |s| && j != 2 ==> IsUpper(s[j])
    ensures IsCallsign(s)
  {
    assert s[|s| - 1] != '\n';
    assert forall j :: 0 <= j < |s| ==> IsUpperOrDigit(s[j]);
    assert CallsignShape(s);
  }
}
