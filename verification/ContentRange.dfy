/** The text of a Content-Range header and the range check of an upload chunk (ctf-registry/handler/blobupload.go). */
module ContentRange {
  import opened Common

  predicate IsDigit(c: char) { '0' <= c <= '9' }

  predicate AllDigits(s: string) { forall i | 0 <= i < |s| :: IsDigit(s[i]) }

  function DigitsValue(s: string): (v: nat)
    requires AllDigits(s)
  {
    if s == "" then 0
    else DigitsValue(s[..|s| - 1]) * 10 + (s[|s| - 1] as int - '0' as int)
  }

  /** strconv.ParseInt(s, 10, 64): optional sign, at least one digit, no overflow. */
  function ParseInt64(s: string): (r: Option<int64>) {
    if s == "" then None
    else
      var digits := if s[0] == '-' || s[0] == '+' then s[1..] else s;
      if digits == "" || !AllDigits(digits) then None
      else
        var n: int := DigitsValue(digits);
        var v := if s[0] == '-' then -n else n;
        if INT64_MIN <= v <= INT64_MAX then Some(v) else None
  }

  function FormatNat(n: nat): (s: string)
    ensures s != "" && AllDigits(s)
    ensures DigitsValue(s) == n
  {
    var digit := ['0' + (n % 10) as char];
    if n < 10 then digit
    else
      var high := FormatNat(n / 10);
      assert (high + digit)[..|high + digit| - 1] == high;
      high + digit
  }

  /** The "%d" rendering of an integer. */
  function FormatInt(n: int): (s: string)
    ensures s != ""
  {
    if n < 0 then "-" + FormatNat(-n) else FormatNat(n)
  }

  /** What is read as an integer: digits after at most one sign, with a value that fits. */
  lemma ParsesExactly(s: string, v: int)
    ensures INT64_MIN <= v <= INT64_MAX && ParseInt64(s) == Some(v) <==>
            exists digits :: digits != "" && AllDigits(digits) && INT64_MIN <= v <= INT64_MAX
                             && (   (s == digits && v == DigitsValue(digits))
                                 || (s == "+" + digits && v == DigitsValue(digits))
                                 || (s == "-" + digits && v + DigitsValue(digits) == 0))
  {
    if s != "" {
      var digits := if s[0] == '-' || s[0] == '+' then s[1..] else s;
      assert s[0] == '-' || s[0] == '+' ==> s == [s[0]] + digits;
      forall other | other != "" && AllDigits(other) && (s == other || s == "+" + other || s == "-" + other)
        ensures other == digits
      {
        assert IsDigit(other[0]);
        assert ("+" + other)[1..] == other && ("-" + other)[1..] == other;
      }
    }
  }

  lemma {:induction false} ParseFormat(n: int64)
    ensures ParseInt64(FormatInt(n)) == Some(n)
  {
    var k: int := n;
    var m: nat := if k < 0 then -k else k;
    var digits := FormatNat(m);
    assert digits != "" && AllDigits(digits) && DigitsValue(digits) == m;
    assert IsDigit(digits[0]);
    var s := FormatInt(n);
    if n < 0 {
      assert s[0] == '-' && s[1..] == digits;
    } else {
      assert s == digits && s[0] != '-' && s[0] != '+';
    }
  }

  /** Index of the first '-' in s, or |s| when there is none. */
  function Dash(s: string): (i: nat)
    ensures i <= |s| && '-' !in s[..i]
    ensures i < |s| ==> s[i] == '-'
  {
    if s == "" || s[0] == '-' then 0
    else
      var i := Dash(s[1..]);
      assert s[..1 + i] == [s[0]] + s[1..][..i];
      1 + i
  }

  lemma {:induction false} DashIs(s: string, i: nat)
    requires i < |s| && s[i] == '-' && forall j | 0 <= j < i :: s[j] != '-'
    ensures Dash(s) == i
  {
    if i > 0 {
      DashIs(s[1..], i - 1);
    }
  }

  /** Cuts at the first '-' and reads both sides; None is the error return. */
  function ParseContentRange(r: string): Option<(int64, int64)> {
    var i := Dash(r);
    if i == |r| then None
    else
      match (ParseInt64(r[..i]), ParseInt64(r[i + 1..]))
      case (Some(s), Some(e)) => Some((s, e))
      case _ => None
  }

  function Render(s: int, e: int): string {
    FormatInt(s) + "-" + FormatInt(e)
  }

  /** Reading inverts rendering for every non-negative start and every end, negative ends included. */
  lemma RangeRoundTrip(s: int64, e: int64)
    requires 0 <= s
    ensures ParseContentRange(Render(s, e)) == Some((s, e))
  {
    var a, b := FormatInt(s), FormatInt(e);
    var r := Render(s, e);
    forall i | 0 <= i < |a| ensures r[i] != '-' {
      assert r[i] == a[i];
      assert i > 0 || s < 0 || IsDigit(a[i]);
    }
    var i := |a|;
    DashIs(r, i);
    assert r[..i] == a && r[i + 1..] == b;
    ParseFormat(s);
    ParseFormat(e);
  }

  /** The start can never be read as negative: a leading '-' is taken as the separator. */
  lemma StartNonNegative(r: string)
    ensures ParseContentRange(r).Some? ==> ParseContentRange(r).value.0 >= 0
  {
    var s := r[..Dash(r)];
    if s != "" {
      assert s[0] in s;
    }
  }

  datatype Verdict = Proceed | BadRequest | RangeNotSatisfiable

  function CheckRange(range: Option<(int64, int64)>, length: Option<int64>, size: int64): Verdict {
    if range == None then BadRequest
    else
      var (s, e) := range.value;
      if s > e then RangeNotSatisfiable
      else if length == None then BadRequest
      else if length.value != Wrap64(Wrap64(e - s) + 1) then RangeNotSatisfiable
      else if size != s then RangeNotSatisfiable
      else Proceed
  }

  /** The checks of a PATCH before any byte is written; `size` is the current size of the session. */
  function PatchGuard(cr: string, cl: string, size: int64): Verdict {
    if cr == "" || cl == "" then Proceed
    else CheckRange(ParseContentRange(cr), ParseInt64(cl), size)
  }

  /** An accepted range starts at the session's size, and its mathematical length is the announced one,
      except exactly when the announced length is the smallest int64 (the one wrap-around). */
  lemma GuardExact(cr: string, cl: string, size: int64)
    requires cr != "" && cl != ""
    requires PatchGuard(cr, cl, size) == Proceed
    ensures ParseContentRange(cr).Some? && ParseInt64(cl).Some?
    ensures var (s, e), length := ParseContentRange(cr).value, ParseInt64(cl).value;
            && 0 <= s <= e && size == s
            && (e - s + 1 == length <==> length != INT64_MIN)
            && (length == INT64_MIN <==> s == 0 && e == INT64_MAX)
  {
    StartNonNegative(cr);
  }

  /** When each verdict is given: without both headers nothing is checked; 400 is for unreadable ones. */
  lemma GuardVerdicts(cr: string, cl: string, size: int64)
    ensures var range, length := ParseContentRange(cr), ParseInt64(cl);
            var readable := range.Some? && length.Some?;
            if cr == "" || cl == "" then PatchGuard(cr, cl, size) == Proceed
            else
              && (PatchGuard(cr, cl, size) == BadRequest <==> range.None? || (range.value.0 <= range.value.1 && length.None?))
              && (readable && range.value.0 <= range.value.1 ==>
                    range.value.1 - range.value.0 + 1 == length.value && size == range.value.0 ==>
                      PatchGuard(cr, cl, size) == Proceed)
  {
  }

  lemma CheckOnChunk(s: int64, n: int64, size: int64)
    requires 0 <= s && 0 <= n && s + n <= INT64_MAX
    ensures CheckRange(Some((s, s + n - 1)), Some(n), size) == if n > 0 && size == s then Proceed else RangeNotSatisfiable
  {
  }

  /** What the guard says of a well-formed chunk header: accepted exactly when it is non-empty and starts
      at the session's size, refused as unsatisfiable otherwise. */
  lemma GuardOnChunk(s: int64, n: int64, size: int64)
    requires 0 <= s && 0 <= n && s + n <= INT64_MAX
    ensures PatchGuard(Render(s, s + n - 1), FormatInt(n), size)
            == if n > 0 && size == s then Proceed else RangeNotSatisfiable
  {
    RangeRoundTrip(s, s + n - 1);
    ParseFormat(n);
    CheckOnChunk(s, n, size);
  }
}
